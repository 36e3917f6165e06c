/** Playing the written frames back on the battle menu: they issue exactly the fake attacks and the commands of the
    turn. The menu is the one the writer assumes: a main menu of seven items without wrap, a ring of eight targets
    that opens at the first enemy, and the highlight back on Attack after either. */
module MenuReplay {
  import opened Bytes
  import opened ActionTypes
  import opened TargetDomains
  import opened PlanWriter

  /** Camera counts the presses of A still needed before the menu takes input. */
  datatype Menu = Camera(taps: nat) | Main(item: nat) | Target(place: nat)

  datatype Command = Attacked(place: nat) | BackedOut | Defended | Focused | Picked(item: nat)

  datatype Played = Played(menu: Menu, commands: seq<Command>)

  /** One frame with at most one button of the controller: 0x100 is A, 0x200 B, 4 down and 8 up; start is where the
      target ring opens. */
  function Play1(m: Menu, button: u16, start: nat): Played {
    match m
    case Camera(taps) =>
      if button != 0x100 then Played(m, [])
      else if taps <= 1 then Played(Main(3), []) else Played(Camera(taps - 1), [])
    case Main(item) =>
      if button == 4 then Played(Main(if item < 6 then item + 1 else 6), [])
      else if button == 8 then Played(Main(if item > 0 then item - 1 else 0), [])
      else if button != 0x100 then Played(m, [])
      else if item == 3 then Played(Target(start), [])
      else Played(m, [if item == 2 then Defended else if item == 6 then Focused else Picked(item)])
    case Target(place) =>
      if button == 4 then Played(Target((place + 1) % 8), [])
      else if button == 8 then Played(Target((place + 7) % 8), [])
      else if button == 0x100 then Played(Main(3), [Attacked(place)])
      else if button == 0x200 then Played(Main(3), [BackedOut])
      else Played(m, [])
  }

  function Play(m: Menu, frames: seq<InputFrame>, start: nat): Played
    decreases |frames|
  {
    if frames == [] then Played(m, [])
    else
      var first := Play1(m, frames[0].buttons, start);
      var rest := Play(first.menu, frames[1..], start);
      Played(rest.menu, first.commands + rest.commands)
  }

  lemma {:induction false} PlayAppend(m: Menu, a: seq<InputFrame>, b: seq<InputFrame>, start: nat)
    ensures var x := Play(m, a, start); var y := Play(x.menu, b, start);
            Play(m, a + b, start) == Played(y.menu, x.commands + y.commands)
    decreases |a|
  {
    hide Play1;
    if a == [] {
      assert a + b == b;
    } else {
      assert (a + b)[1..] == a[1..] + b;
      PlayAppend(Play1(m, a[0].buttons, start).menu, a[1..], b, start);
    }
  }

  lemma {:induction false} PlayNeutral(m: Menu, n: nat, start: nat)
    ensures Play(m, Neutrals(n), start) == Played(m, [])
  {
    if n > 0 {
      assert Neutrals(n)[1..] == Neutrals(n - 1);
      PlayNeutral(m, n - 1, start);
    }
  }

  lemma PlayPress(m: Menu, button: u16, start: nat)
    requires button == BUTTON_A || button == BUTTON_B || button == BUTTON_UP || button == BUTTON_DOWN
    ensures Play(m, Press(button), start) == Play1(m, button, start)
  {
    assert Press(button)[1..] == Neutrals(1);
    PlayNeutral(Play1(m, button, start).menu, 1, start);
  }

  /** A press and n neutral frames. */
  lemma PlaySlow(m: Menu, button: u16, n: nat, start: nat)
    requires button == BUTTON_A || button == BUTTON_B || button == BUTTON_UP || button == BUTTON_DOWN
    ensures Play(m, Press(button) + Neutrals(n), start) == Play1(m, button, start)
  {
    PlayAppend(m, Press(button), Neutrals(n), start);
    PlayPress(m, button, start);
    PlayNeutral(Play1(m, button, start).menu, n, start);
  }

  // ---------------------------------------------------------------- navigation

  lemma {:induction false} PlayDown(from: nat, n: nat, start: nat)
    requires from + n <= 6
    ensures Play(Main(from), Times(Press(BUTTON_DOWN) + Neutrals(2), n), start) == Played(Main(from + n), [])
  {
    if n > 0 {
      PlayDown(from, n - 1, start);
      PlayAppend(Main(from), Times(Press(BUTTON_DOWN) + Neutrals(2), n - 1), Press(BUTTON_DOWN) + Neutrals(2), start);
      PlaySlow(Main(from + n - 1), BUTTON_DOWN, 2, start);
    }
  }

  lemma {:induction false} PlayUp(from: nat, n: nat, start: nat)
    requires n <= from <= 6
    ensures Play(Main(from), Times(Press(BUTTON_UP) + Neutrals(2), n), start) == Played(Main(from - n), [])
  {
    if n > 0 {
      PlayUp(from, n - 1, start);
      PlayAppend(Main(from), Times(Press(BUTTON_UP) + Neutrals(2), n - 1), Press(BUTTON_UP) + Neutrals(2), start);
      PlaySlow(Main(from - n + 1), BUTTON_UP, 2, start);
    }
  }

  /** The main menu ends on the wanted item and issues nothing. */
  lemma PlayMainMoves(from: nat, to: nat, start: nat)
    requires from <= 6 && to <= 6
    ensures Play(Main(from), MainMoves(from, to), start) == Played(Main(to), [])
  {
    if from <= to { PlayDown(from, to - from, start); } else { PlayUp(from, from - to, start); }
  }

  lemma RingStep(x: nat)
    ensures (x % 8 + 1) % 8 == (x + 1) % 8 && x % 8 < 8
  {
  }

  lemma {:induction false} PlayRingDown(from: nat, n: nat, start: nat)
    requires from < 8
    ensures Play(Target(from), Times(Press(BUTTON_DOWN), n), start) == Played(Target((from + n) % 8), [])
  {
    if n > 0 {
      RingStep(from + n - 1);
      PlayRingDown(from, n - 1, start);
      PlayAppend(Target(from), Times(Press(BUTTON_DOWN), n - 1), Press(BUTTON_DOWN), start);
      PlayPress(Target((from + n - 1) % 8), BUTTON_DOWN, start);
    }
  }

  lemma RingStepBack(x: nat)
    requires x > 0
    ensures (x % 8 + 7) % 8 == (x - 1) % 8 && x % 8 < 8
  {
  }

  lemma {:induction false} PlayRingUp(from: nat, n: nat, start: nat)
    requires from < 8 && n <= 8
    ensures Play(Target(from), Times(Press(BUTTON_UP), n), start) == Played(Target((from + 8 - n) % 8), [])
  {
    if n > 0 {
      RingStepBack(from + 9 - n);
      PlayRingUp(from, n - 1, start);
      PlayAppend(Target(from), Times(Press(BUTTON_UP), n - 1), Press(BUTTON_UP), start);
      PlayPress(Target((from + 9 - n) % 8), BUTTON_UP, start);
    }
  }

  /** The target cursor ends on the wanted place. */
  lemma PlayTargetMoves(cur: nat, dst: nat, start: nat)
    requires cur < 8 && dst < 8
    ensures Play(Target(cur), TargetMoves(cur, dst), start) == Played(Target(dst), [])
  {
    RingLands(cur, dst);
    hide RingDown, RingUp, Play, Times;
    if RingDown(cur, dst) <= RingUp(cur, dst) {
      PlayRingDown(cur, RingDown(cur, dst), start);
    } else {
      PlayRingUp(cur, RingUp(cur, dst), start);
    }
  }

  lemma RingLands(cur: nat, dst: nat)
    requires cur < 8 && dst < 8
    ensures RingDown(cur, dst) == (if dst >= cur then dst - cur else dst + 8 - cur) && (cur + RingDown(cur, dst)) % 8 == dst
    ensures RingUp(cur, dst) == (if cur >= dst then cur - dst else cur + 8 - dst) && (cur + 8 - RingUp(cur, dst)) % 8 == dst
  {
  }

  /** Pressing down x more often than up lands on the same place as x mod 8. */
  lemma RingShortest(cur: nat, dst: nat, downs: nat, ups: nat)
    requires cur < 8 && dst < 8 && RingPlace(cur, downs, ups) == dst
    ensures RingDown(cur, dst) <= downs || RingUp(cur, dst) <= ups
  {
    RingLands(cur, dst);
    hide RingDown, RingUp;
    var q := (cur + downs - ups) / 8;
    assert cur + downs - ups == 8 * q + dst;
  }

  /** The place after some presses down and up, in any order. */
  function RingPlace(cur: nat, downs: nat, ups: nat): int { (cur + downs - ups) % 8 }

  lemma TimesLength(f: seq<InputFrame>, n: nat)
    requires |f| == 2
    ensures |Times(f, n)| == 2 * n
  {
    if n > 0 { TimesLength(f, n - 1); }
  }

  /** No sequence of presses reaches the place with fewer of them. */
  lemma TargetMovesShortest(cur: nat, dst: nat, downs: nat, ups: nat)
    requires cur < 8 && dst < 8 && RingPlace(cur, downs, ups) == dst
    ensures |TargetMoves(cur, dst)| <= 2 * (downs + ups)
  {
    RingShortest(cur, dst, downs, ups);
    hide RingDown, RingUp, RingPlace, Times;
    if RingDown(cur, dst) <= RingUp(cur, dst) {
      TimesLength(Press(BUTTON_DOWN), RingDown(cur, dst));
    } else {
      TimesLength(Press(BUTTON_UP), RingUp(cur, dst));
    }
  }

  // ---------------------------------------------------------------- commands

  /** Where the ring opens; irrelevant when there is no enemy. */
  function Opens(bc: BattleContext): (r: nat)
    requires bc.Valid()
    ensures r < 8
  {
    FirstEnemyExact(bc, 4);
    if Cursor(bc) < 0 then 0 else Cursor(bc)
  }

  function Asked(bc: BattleContext, a: ActionPlan): Command
    requires bc.Valid() && Supported(bc, a)
  {
    if a.macro == 0 then Attacked(Requested(bc, a.targetMask)) else if a.macro == 1 then Defended else Focused
  }

  /** The action can be written: attack (0) with a target that can be hit, defend (1) or focus (2). */
  predicate Supported(bc: BattleContext, a: ActionPlan)
    requires bc.Valid()
  {
    (a.macro == 0 && Requested(bc, a.targetMask) >= 0) || a.macro == 1 || a.macro == 2
  }

  /** Slot k shows a living or a dead enemy. */
  predicate Enemy(bc: BattleContext, k: nat)
    requires bc.Valid() && k < 12
  {
    bc.slots[k].present != 0 && bc.slots[k].isPlayer == 0
  }

  /** Slot k shows a living enemy of the mask. */
  predicate Wanted(bc: BattleContext, mask: bv32, k: nat)
    requires bc.Valid() && k < 12
  {
    Enemy(bc, k) && bc.slots[k].isAlive != 0 && mask & (1 << k) != 0
  }

  lemma WantedIs(bc: BattleContext, mask: bv32, k: nat)
    requires bc.Valid() && k < 12
    ensures Wanted(bc, mask, k) <==> CanBeHit(bc.slots[k]) && Has(mask, Bit(k))
  {
  }

  /** Main result: the target of a request: the first living enemy of the mask; without a mask the place where the cursor
      stands, at the first enemy, dead or alive; none when there is no such enemy. */
  lemma RequestedMeans(bc: BattleContext, mask: bv32)
    requires bc.Valid()
    ensures var r := Requested(bc, mask);
            && -1 <= r < 8
            && (r >= 0 ==> (if mask == 0 then Enemy(bc, r + 4) else Wanted(bc, mask, r + 4)))
            && (forall k | 4 <= k < (if r < 0 then 12 else r + 4) :: if mask == 0 then !Enemy(bc, k) else !Wanted(bc, mask, k))
  {
    FirstEnemyExact(bc, 4);
    FirstHitExact(bc, mask, 4);
    forall k: nat | k < 12 ensures Wanted(bc, mask, k) <==> CanBeHit(bc.slots[k]) && Has(mask, Bit(k)) { WantedIs(bc, mask, k); }
    hide Has, Bit, Wanted;
  }

  function AllAsked(bc: BattleContext, spec: TurnPlanSpec, i: nat): (c: seq<Command>)
    requires bc.Valid() && i <= |spec| && forall k | i <= k < |spec| :: Supported(bc, spec[k])
    ensures |c| == |spec| - i && forall k | 0 <= k < |c| :: c[k] == Asked(bc, spec[i + k])
  {
    seq(|spec| - i, k requires 0 <= k < |spec| - i => Asked(bc, spec[i + k]))
  }

  lemma PlayAction(bc: BattleContext, item: u8, a: ActionPlan)
    requires bc.Valid() && item <= 6 && Supported(bc, a)
    ensures var w := WriteAction(bc, item, a);
            w.ok && Play(Main(item), w.frames, Opens(bc)) == Played(Main(w.item), [Asked(bc, a)])
  {
    var s := Opens(bc);
    if a.macro == ATTACK {
      FirstEnemyExact(bc, 4);
      FirstHitExact(bc, a.targetMask, 4);
      PlayAttack(item, Cursor(bc), Requested(bc, a.targetMask));
    } else {
      var to := if a.macro == DEFEND then DEFEND_ITEM else FOCUS_ITEM;
      PlayMainMoves(item, to, s);
      PlayAppend(Main(item), MainMoves(item, to), Press(BUTTON_A), s);
      PlayPress(Main(to), BUTTON_A, s);
    }
  }

  lemma PlayAttack(item: u8, cur: nat, dst: nat)
    requires item <= 6 && cur < 8 && dst < 8
    ensures Play(Main(item), MainMoves(item, ATTACK_ITEM) + Press(BUTTON_A) + TargetMoves(cur, dst) + Press(BUTTON_A), cur)
            == Played(Main(3), [Attacked(dst)])
  {
    hide MainMoves, TargetMoves, Play;
    var a, b, c := MainMoves(item, ATTACK_ITEM), Press(BUTTON_A), TargetMoves(cur, dst);
    PlayMainMoves(item, ATTACK_ITEM, cur);
    PlayPress(Main(3), BUTTON_A, cur);
    PlayAppend(Main(item), a, b, cur);
    PlayTargetMoves(cur, dst, cur);
    PlayAppend(Main(item), a + b, c, cur);
    PlayPress(Target(dst), BUTTON_A, cur);
    PlayAppend(Main(item), a + b + c, b, cur);
  }

  lemma PlayNothing(m: Menu, start: nat)
    ensures Play(m, [], start) == Played(m, [])
  {
  }

  /** A pause changes nothing. */
  lemma PlayPaused(m: Menu, n: nat, frames: seq<InputFrame>, start: nat)
    ensures Play(m, Neutrals(n) + frames, start) == Play(m, frames, start)
  {
    hide Play, Neutrals;
    PlayNeutral(m, n, start);
    PlayAppend(m, Neutrals(n), frames, start);
    var x := Play(m, frames, start);
    assert [] + x.commands == x.commands;
  }

  /** A pause, an action, and the rest. */
  lemma PlayThree(m: Menu, n: nat, action: seq<InputFrame>, rest: seq<InputFrame>, start: nat)
    ensures var x := Play(m, action, start); var y := Play(x.menu, rest, start);
            Play(m, Neutrals(n) + action + rest, start) == Played(y.menu, x.commands + y.commands)
  {
    hide Play, Neutrals;
    PlayPaused(m, n, action, start);
    PlayAppend(m, Neutrals(n) + action, rest, start);
  }

  lemma AskedStep(bc: BattleContext, spec: TurnPlanSpec, i: nat)
    requires bc.Valid() && i < |spec| && forall k | i <= k < |spec| :: Supported(bc, spec[k])
    ensures AllAsked(bc, spec, i) == [Asked(bc, spec[i])] + AllAsked(bc, spec, i + 1)
  {
    hide Supported, Asked;
  }

  /** The written actions issue exactly the asked commands, in order. */
  lemma {:induction false} PlayActions(bc: BattleContext, item: u8, spec: TurnPlanSpec, i: nat)
    requires bc.Valid() && item <= 6 && i <= |spec| && forall k | i <= k < |spec| :: Supported(bc, spec[k])
    ensures var w := WriteActions(bc, item, spec, i);
            w.ok && w.err == OK && Play(Main(item), w.frames, Opens(bc)) == Played(Main(w.item), AllAsked(bc, spec, i))
    decreases |spec| - i
  {
    hide WriteAction, Supported, Asked, Opens, Play, Neutrals;
    if i == |spec| {
      PlayNothing(Main(item), Opens(bc));
    } else {
      var w := WriteAction(bc, item, spec[i]);
      PlayAction(bc, item, spec[i]);
      PlayActions(bc, w.item, spec, i + 1);
      AskedStep(bc, spec, i);
      hide AllAsked;
      PlayThree(Main(item), if i > 0 then 1 else 0, w.frames, WriteActions(bc, w.item, spec, i + 1).frames, Opens(bc));
    }
  }

  function Fakes(n: nat): (c: seq<Command>)
    ensures |c| == n && forall k | 0 <= k < n :: c[k] == BackedOut
  {
    seq(n, k => BackedOut)
  }

  lemma PlayFakeAttack(item: u8, s: nat)
    requires item <= 6
    ensures Play(Main(item), FakeAttack(item), s) == Played(Main(3), [BackedOut])
  {
    hide MainMoves, Play;
    var a, b, c := MainMoves(item, ATTACK_ITEM), Press(BUTTON_A) + Neutrals(1), Press(BUTTON_B) + Neutrals(1);
    PlayMainMoves(item, ATTACK_ITEM, s);
    PlaySlow(Main(3), BUTTON_A, 1, s);
    PlaySlow(Target(s), BUTTON_B, 1, s);
    PlayAppend(Main(3), b, c, s);
    PlayAppend(Main(item), a, b + c, s);
    assert FakeAttack(item) == a + (b + c);
  }

  lemma {:induction false} PlayFakeAttacks(item: u8, n: nat, s: nat)
    requires item <= 6
    ensures Play(Main(item), FakeAttacks(item, n), s) == Played(Main(3), Fakes(n))
    decreases n
  {
    if n == 0 {
      PlayMainMoves(item, ATTACK_ITEM, s);
    } else {
      hide Play, MainMoves, FakeAttack;
      PlayFakeAttack(item, s);
      PlayFakeAttacks(ATTACK_ITEM, n - 1, s);
      PlayAppend(Main(item), FakeAttack(item), FakeAttacks(ATTACK_ITEM, n - 1), s);
      assert Fakes(n) == [BackedOut] + Fakes(n - 1);
    }
  }

  /** The presses of A needed to end the opening camera moves. */
  function CameraTaps(bc: BattleContext): nat { if bc.turnCount == 1 && bc.battlePhase == 4 then 2 else 1 }

  lemma PlayOpening(bc: BattleContext, s: nat)
    ensures Play(Camera(CameraTaps(bc)), Opening(bc), s) == Played(Main(3), [])
  {
    hide Play;
    PlayNeutral(Camera(1), 1, s);
    PlayPress(Camera(1), BUTTON_A, s);
    PlayAppend(Camera(1), Neutrals(1), Press(BUTTON_A), s);
    if Rotates(bc) {
      PlayPress(Camera(2), BUTTON_A, s);
      PlayAppend(Camera(2), Press(BUTTON_A), Neutrals(1) + Press(BUTTON_A), s);
    } else {
      assert Opening(bc) == Neutrals(1) + Press(BUTTON_A);
    }
  }

  /** Main result: from the opening camera move on, the frames of a supported turn play as exactly the requested
      number of opened and cancelled attacks, and then the turn's commands on the resolved targets. */
  lemma TurnPlaysBack(bc: BattleContext, plan: TurnPlan)
    requires bc.Valid() && plan.fakeAttackCount <= 255 && forall k | 0 <= k < |plan.spec| :: Supported(bc, plan.spec[k])
    ensures var w := WriteTurn(bc, plan);
            && w.ok && w.err == OK
            && Play(Camera(CameraTaps(bc)), w.frames, Opens(bc)) ==
               Played(Main(w.item), Fakes(plan.fakeAttackCount) + AllAsked(bc, plan.spec, 0))
  {
    hide Play, Opening, FakeAttacks, WriteActions, Supported;
    var s := Opens(bc);
    var open, fakes, actions := Opening(bc), FakeAttacks(ATTACK_ITEM, plan.fakeAttackCount), WriteActions(bc, ATTACK_ITEM, plan.spec, 0);
    PlayOpening(bc, s);
    PlayFakeAttacks(ATTACK_ITEM, plan.fakeAttackCount, s);
    PlayActions(bc, ATTACK_ITEM, plan.spec, 0);
    PlayAppend(Camera(CameraTaps(bc)), open, fakes, s);
    PlayAppend(Camera(CameraTaps(bc)), open + fakes, actions.frames, s);
  }

  // ---------------------------------------------------------------- when writing fails

  /** The first action that cannot be written, or the length. */
  function FirstBad(bc: BattleContext, spec: TurnPlanSpec, i: nat): (k: nat)
    requires bc.Valid() && i <= |spec|
    ensures i <= k <= |spec| && (k < |spec| ==> !Supported(bc, spec[k])) && forall x | i <= x < k :: Supported(bc, spec[x])
    decreases |spec| - i
  {
    if i == |spec| || !Supported(bc, spec[i]) then i else FirstBad(bc, spec, i + 1)
  }

  lemma {:induction false} ActionsFailExactlyWhen(bc: BattleContext, item: u8, spec: TurnPlanSpec, i: nat)
    requires bc.Valid() && item <= 6 && i <= |spec|
    ensures var w, k := WriteActions(bc, item, spec, i), FirstBad(bc, spec, i);
            && (w.ok <==> k == |spec|)
            && w.err == if k < |spec| && spec[k].macro == ATTACK then NoValidTarget else OK
    decreases |spec| - i
  {
    if i < |spec| {
      hide MainMoves, TargetMoves, Requested;
      if Supported(bc, spec[i]) { ActionsFailExactlyWhen(bc, WriteAction(bc, item, spec[i]).item, spec, i + 1); }
    }
  }

  /** Main result: writing succeeds exactly for supported turns; an attack without target is reported, while an
      unsupported macro fails without an error code. */
  lemma TurnFailsExactlyWhen(bc: BattleContext, plan: TurnPlan)
    requires bc.Valid() && plan.fakeAttackCount <= 255
    ensures var w, k := WriteTurn(bc, plan), FirstBad(bc, plan.spec, 0);
            && (w.ok <==> forall x | 0 <= x < |plan.spec| :: Supported(bc, plan.spec[x]))
            && (w.err == NoValidTarget <==> k < |plan.spec| && plan.spec[k].macro == 0)
            && (!w.ok && w.err == OK <==> k < |plan.spec| && plan.spec[k].macro > 2)
  {
    hide Supported;
    ActionsFailExactlyWhen(bc, ATTACK_ITEM, plan.spec, 0);
    BadMacro(bc, plan.spec, FirstBad(bc, plan.spec, 0));
  }

  lemma BadMacro(bc: BattleContext, spec: TurnPlanSpec, k: nat)
    requires bc.Valid() && (k < |spec| ==> !Supported(bc, spec[k]))
    ensures k < |spec| ==> spec[k].macro == ATTACK || spec[k].macro > FOCUS
  {
  }

  // ---------------------------------------------------------------- the frames themselves

  /** Sticks and triggers rest, at most one button is held, and a press is followed by its release. */
  ghost predicate CalmAt(frames: seq<InputFrame>, i: nat)
    requires i < |frames|
  {
    var f := frames[i];
    && f.mainX == f.mainY == f.cX == f.cY == 128 && f.trigL == f.trigR == 0 && f.buttons in {0, 4, 8, 0x100, 0x200}
    && (f.buttons != 0 ==> i + 1 < |frames| && frames[i + 1].buttons == 0)
  }

  ghost predicate Calm(frames: seq<InputFrame>) {
    forall i: nat | i < |frames| :: CalmAt(frames, i)
  }

  lemma CalmAppend(a: seq<InputFrame>, b: seq<InputFrame>)
    requires Calm(a) && Calm(b)
    ensures Calm(a + b)
  {
    forall i: nat | i < |a + b| ensures CalmAt(a + b, i) {
      if i < |a| { assert CalmAt(a, i); } else { assert CalmAt(b, i - |a|); }
    }
  }

  lemma CalmPress(button: u16, n: nat)
    requires button in {4, 8, 0x100, 0x200}
    ensures Calm(Neutrals(n)) && Calm(Press(button)) && Calm(Press(button) + Neutrals(n))
  {
  }

  lemma {:induction false} CalmTimes(f: seq<InputFrame>, n: nat)
    requires Calm(f)
    ensures Calm(Times(f, n))
  {
    hide Calm;
    if n > 0 {
      CalmTimes(f, n - 1);
      CalmAppend(Times(f, n - 1), f);
    } else {
      NoFrames();
    }
  }

  lemma NoFrames()
    ensures Calm([])
  {
  }

  lemma CalmMainMoves(from: nat, to: nat)
    ensures Calm(MainMoves(from, to)) && |MainMoves(from, to)| == 4 * if from <= to then to - from else from - to
  {
    hide Calm;
    CalmPress(4, 2);
    CalmPress(8, 2);
    if from <= to {
      CalmTimes(Press(BUTTON_DOWN) + Neutrals(2), to - from);
      TimesFour(Press(BUTTON_DOWN) + Neutrals(2), to - from);
    } else {
      CalmTimes(Press(BUTTON_UP) + Neutrals(2), from - to);
      TimesFour(Press(BUTTON_UP) + Neutrals(2), from - to);
    }
  }

  lemma {:induction false} TimesFour(f: seq<InputFrame>, n: nat)
    requires |f| == 4
    ensures |Times(f, n)| == 4 * n
  {
    if n > 0 { TimesFour(f, n - 1); }
  }

  /** The shorter way round the ring of eight. */
  function Shorter(cur: nat, dst: nat): nat
    requires cur < 8 && dst < 8
  {
    var d := if cur <= dst then dst - cur else cur - dst;
    if d <= 4 then d else 8 - d
  }

  lemma CalmTargetMoves(cur: nat, dst: nat)
    requires cur < 8 && dst < 8
    ensures Calm(TargetMoves(cur, dst)) && |TargetMoves(cur, dst)| == 2 * Shorter(cur, dst)
  {
    hide Calm;
    RingLands(cur, dst);
    CalmPress(4, 0);
    CalmPress(8, 0);
    if RingDown(cur, dst) <= RingUp(cur, dst) {
      CalmTimes(Press(BUTTON_DOWN), RingDown(cur, dst));
      TimesLength(Press(BUTTON_DOWN), RingDown(cur, dst));
    } else {
      CalmTimes(Press(BUTTON_UP), RingUp(cur, dst));
      TimesLength(Press(BUTTON_UP), RingUp(cur, dst));
    }
  }

  /** The main-menu item of an action: 3 attack, 2 defend, 6 focus. */
  function ItemOf(a: ActionPlan): nat { if a.macro == 0 then 3 else if a.macro == 1 then 2 else 6 }

  /** Four frames for every item passed in the main menu, two for every press of A, two for every target passed. */
  function ActionLength(bc: BattleContext, item: nat, a: ActionPlan): nat
    requires bc.Valid() && Supported(bc, a)
  {
    var to := ItemOf(a);
    RequestedMeans(bc, a.targetMask);
    4 * (if item <= to then to - item else item - to) + 2 + if a.macro == 0 then 2 * Shorter(Opens(bc), Requested(bc, a.targetMask)) + 2 else 0
  }

  /** One frame between two actions. */
  function ActionsLength(bc: BattleContext, item: nat, spec: TurnPlanSpec, i: nat): nat
    requires bc.Valid() && i <= |spec| && forall k | i <= k < |spec| :: Supported(bc, spec[k])
    decreases |spec| - i
  {
    if i == |spec| then 0
    else (if i > 0 then 1 else 0) + ActionLength(bc, item, spec[i]) + ActionsLength(bc, ItemOf(spec[i]), spec, i + 1)
  }

  lemma ActionCalm(bc: BattleContext, item: u8, a: ActionPlan)
    requires bc.Valid() && item <= 6 && Supported(bc, a)
    ensures var w := WriteAction(bc, item, a); Calm(w.frames) && |w.frames| == ActionLength(bc, item, a) && w.item == ItemOf(a)
  {
    hide Calm, MainMoves, TargetMoves, Requested, Shorter, Cursor;
    CalmPress(0x100, 0);
    RequestedMeans(bc, a.targetMask);
    FirstEnemyExact(bc, 4);
    if a.macro == 0 {
      AttackCalm(bc, item, a);
    } else {
      CalmMainMoves(item, ItemOf(a));
      CalmAppend(MainMoves(item, ItemOf(a)), Press(BUTTON_A));
    }
  }

  lemma AttackCalm(bc: BattleContext, item: u8, a: ActionPlan)
    requires bc.Valid() && item <= 6 && Supported(bc, a) && a.macro == 0
    ensures var w := WriteAction(bc, item, a); Calm(w.frames) && |w.frames| == ActionLength(bc, item, a) && w.item == 3
  {
    hide Calm, MainMoves, TargetMoves, Shorter;
    CalmPress(0x100, 0);
    RequestedMeans(bc, a.targetMask);
    FirstEnemyExact(bc, 4);
    var x, y, z := MainMoves(item, ATTACK_ITEM), Press(BUTTON_A), TargetMoves(Cursor(bc), Requested(bc, a.targetMask));
    CalmMainMoves(item, 3);
    CalmTargetMoves(Cursor(bc), Requested(bc, a.targetMask));
    CalmAppend(x, y);
    CalmAppend(x + y, z);
    CalmAppend(x + y + z, y);
  }

  lemma {:induction false} ActionsCalm(bc: BattleContext, item: u8, spec: TurnPlanSpec, i: nat)
    requires bc.Valid() && item <= 6 && i <= |spec| && forall k | i <= k < |spec| :: Supported(bc, spec[k])
    ensures var w := WriteActions(bc, item, spec, i); Calm(w.frames) && |w.frames| == ActionsLength(bc, item, spec, i)
    decreases |spec| - i
  {
    hide Calm, WriteAction, Supported, ActionLength;
    if i == |spec| {
      NoFrames();
    } else {
      var gap, w := Neutrals(if i > 0 then 1 else 0), WriteAction(bc, item, spec[i]);
      PlayAction(bc, item, spec[i]);
      ActionCalm(bc, item, spec[i]);
      ActionsCalm(bc, w.item, spec, i + 1);
      CalmPress(4, if i > 0 then 1 else 0);
      CalmAppend(gap, w.frames);
      CalmAppend(gap + w.frames, WriteActions(bc, w.item, spec, i + 1).frames);
    }
  }

  lemma {:induction false} FakesCalm(n: nat)
    ensures Calm(FakeAttacks(ATTACK_ITEM, n)) && |FakeAttacks(ATTACK_ITEM, n)| == 6 * n
    decreases n
  {
    hide Calm;
    CalmMainMoves(3, 3);
    if n > 0 {
      FakeCalm();
      FakesCalm(n - 1);
      CalmAppend(FakeAttack(ATTACK_ITEM), FakeAttacks(ATTACK_ITEM, n - 1));
    }
  }

  lemma FakeCalm()
    ensures Calm(FakeAttack(ATTACK_ITEM)) && |FakeAttack(ATTACK_ITEM)| == 6
  {
    hide Calm, MainMoves;
    CalmMainMoves(3, 3);
    CalmPress(0x100, 1);
    CalmPress(0x200, 1);
    CalmAppend(Press(BUTTON_A) + Neutrals(1), Press(BUTTON_B) + Neutrals(1));
    CalmAppend(MainMoves(ATTACK_ITEM, ATTACK_ITEM), Press(BUTTON_A) + Neutrals(1) + (Press(BUTTON_B) + Neutrals(1)));
  }

  /** Main result: a supported turn takes three frames to stop the camera zoom, two more to stop its rotation, six for
      every fake attack, and what its actions take; the frames press one button at a time and release it at once. */
  lemma TurnFrames(bc: BattleContext, plan: TurnPlan)
    requires bc.Valid() && plan.fakeAttackCount <= 255 && forall k | 0 <= k < |plan.spec| :: Supported(bc, plan.spec[k])
    ensures var frames := WriteTurn(bc, plan).frames;
            && Calm(frames)
            && |frames| == (if bc.turnCount == 1 && bc.battlePhase == 4 then 5 else 3) + 6 * plan.fakeAttackCount + ActionsLength(bc, 3, plan.spec, 0)
  {
    hide Calm, FakeAttacks, WriteActions, Supported, ActionsLength;
    CalmPress(0x100, 0);
    CalmPress(0x100, 1);
    CalmAppend(Neutrals(1), Press(BUTTON_A));
    CalmAppend(Press(BUTTON_A), Neutrals(1) + Press(BUTTON_A));
    assert [] + (Neutrals(1) + Press(BUTTON_A)) == Neutrals(1) + Press(BUTTON_A);
    FakesCalm(plan.fakeAttackCount);
    ActionsCalm(bc, ATTACK_ITEM, plan.spec, 0);
    var open, fakes := Opening(bc), FakeAttacks(ATTACK_ITEM, plan.fakeAttackCount);
    CalmAppend(open, fakes);
    CalmAppend(open + fakes, WriteActions(bc, ATTACK_ITEM, plan.spec, 0).frames);
  }
}
