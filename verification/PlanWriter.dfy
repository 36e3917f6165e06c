/** Turning one turn of a battle path into controller frames: menu navigation from a remembered highlight. */
module PlanWriter {
  import opened Bytes
  import opened ActionTypes
  import opened TargetDomains

  const BUTTON_DOWN: u16 := 0x0004
  const BUTTON_UP: u16 := 0x0008
  const BUTTON_A: u16 := 0x0100
  const BUTTON_B: u16 := 0x0200

  datatype MaterializeErr =
    | OK | NoValidTarget | NotEnoughResource | InvalidNavigation | OutOfTurns | BadBlob | InvalidTurnIdxZero

  const ATTACK_ITEM: u8 := 3
  const DEFEND_ITEM: u8 := 2
  const FOCUS_ITEM: u8 := 6

  // ---------------------------------------------------------------- frames

  function Press(button: u16): (f: seq<InputFrame>)
    ensures |f| == 2
  {
    [NEUTRAL.(buttons := button), NEUTRAL]
  }

  function Neutrals(n: nat): (f: seq<InputFrame>)
    ensures |f| == n
  {
    seq(n, i => NEUTRAL)
  }

  function Times(f: seq<InputFrame>, n: nat): seq<InputFrame> {
    if n == 0 then [] else Times(f, n - 1) + f
  }

  /** Main menu: no wrap, two frames to settle after each move. */
  function MainMoves(from: nat, to: nat): seq<InputFrame> {
    if from <= to then Times(Press(BUTTON_DOWN) + Neutrals(2), to - from)
    else Times(Press(BUTTON_UP) + Neutrals(2), from - to)
  }

  function RingDown(cur: nat, dst: nat): nat { (dst as int - cur + 8) % 8 }

  function RingUp(cur: nat, dst: nat): nat { (cur as int - dst + 8) % 8 }

  /** Target menu: eight places in a ring, the shorter way round, down when both are equal. */
  function TargetMoves(cur: nat, dst: nat): seq<InputFrame> {
    if RingDown(cur, dst) <= RingUp(cur, dst) then Times(Press(BUTTON_DOWN), RingDown(cur, dst))
    else Times(Press(BUTTON_UP), RingUp(cur, dst))
  }

  // ---------------------------------------------------------------- targets

  predicate IsEnemy(s: BattleSlot) { s.present != 0 && s.isPlayer == 0 }

  predicate CanBeHit(s: BattleSlot) { IsEnemy(s) && s.isAlive != 0 }

  function FirstEnemyFrom(bc: BattleContext, i: nat): (r: int)
    requires bc.Valid() && 4 <= i <= 12
    decreases 12 - i
  {
    if i == 12 then -1 else if IsEnemy(bc.slots[i]) then i - 4 else FirstEnemyFrom(bc, i + 1)
  }

  function FirstHitFrom(bc: BattleContext, mask: bv32, i: nat): (r: int)
    requires bc.Valid() && 4 <= i <= 12
    decreases 12 - i
  {
    if i == 12 then -1
    else if CanBeHit(bc.slots[i]) && Has(mask, Bit(i)) then i - 4 else FirstHitFrom(bc, mask, i + 1)
  }

  /** Where the target cursor starts: the first enemy, dead or alive. */
  function Cursor(bc: BattleContext): int
    requires bc.Valid()
  {
    FirstEnemyFrom(bc, 4)
  }

  /** The requested target: with no mask the cursor's own place, else the first living enemy in the mask. */
  function Requested(bc: BattleContext, mask: bv32): int
    requires bc.Valid()
  {
    if Cursor(bc) < 0 then -1 else if mask == 0 then Cursor(bc) else FirstHitFrom(bc, mask, 4)
  }

  lemma {:induction false} FirstEnemyExact(bc: BattleContext, i: nat)
    requires bc.Valid() && 4 <= i <= 12
    ensures var r := FirstEnemyFrom(bc, i);
            && -1 <= r < 8 && (r >= 0 ==> i <= r + 4 && IsEnemy(bc.slots[r + 4]))
            && forall k | i <= k < (if r < 0 then 12 else r + 4) :: !IsEnemy(bc.slots[k])
    decreases 12 - i
  {
    if i < 12 && !IsEnemy(bc.slots[i]) { FirstEnemyExact(bc, i + 1); }
  }

  lemma {:induction false} FirstHitExact(bc: BattleContext, mask: bv32, i: nat)
    requires bc.Valid() && 4 <= i <= 12
    ensures var r := FirstHitFrom(bc, mask, i);
            && -1 <= r < 8 && (r >= 0 ==> i <= r + 4 && CanBeHit(bc.slots[r + 4]) && Has(mask, Bit(r + 4)))
            && forall k | i <= k < (if r < 0 then 12 else r + 4) :: !(CanBeHit(bc.slots[k]) && Has(mask, Bit(k)))
    decreases 12 - i
  {
    hide Has, Bit;
    if i < 12 && !(CanBeHit(bc.slots[i]) && Has(mask, Bit(i))) { FirstHitExact(bc, mask, i + 1); }
  }

  /** Main result on targets: a single-enemy mask selects that enemy exactly when it can be hit, and nothing else. */
  lemma SingleTarget(bc: BattleContext, j: nat)
    requires bc.Valid() && 4 <= j < 12
    ensures Requested(bc, Bit(j)) == if CanBeHit(bc.slots[j]) then j - 4 else -1
  {
    FirstHitExact(bc, Bit(j), 4);
    FirstEnemyExact(bc, 4);
    BitIsSingle(j);
    forall k: nat | 4 <= k < 12 ensures Has(Bit(j), Bit(k)) <==> k == j {
      BitIsSingle(k);
      Overlap(Bit(k), Bit(j));
      if k != j { BitsDiffer(k, j); }
    }
    hide Has, Bit;
  }

  lemma BitsDiffer(k: nat, j: nat)
    requires 4 <= k < 12 && 4 <= j < 12 && k != j
    ensures Bit(k) != Bit(j)
  {
    BitValue(k);
    BitValue(j);
  }

  lemma BitValue(k: nat)
    requires 4 <= k < 12
    ensures Bit(k) == if k == 4 then 0x10 else if k == 5 then 0x20 else if k == 6 then 0x40 else if k == 7 then 0x80
                      else if k == 8 then 0x100 else if k == 9 then 0x200 else if k == 10 then 0x400 else 0x800
  {
  }

  // ---------------------------------------------------------------- a whole turn

  /** The writer's output so far, the highlight it remembers, and whether it may go on. */
  datatype Written = Written(frames: seq<InputFrame>, item: u8, ok: bool, err: MaterializeErr)

  function FakeAttack(item: u8): seq<InputFrame> {
    MainMoves(item, ATTACK_ITEM) + (Press(BUTTON_A) + Neutrals(1) + (Press(BUTTON_B) + Neutrals(1)))
  }

  function FakeAttacks(item: u8, n: nat): seq<InputFrame>
    decreases n
  {
    if n == 0 then MainMoves(item, ATTACK_ITEM) else FakeAttack(item) + FakeAttacks(ATTACK_ITEM, n - 1)
  }

  function WriteAction(bc: BattleContext, item: u8, a: ActionPlan): (w: Written)
    requires bc.Valid() && item <= 6
    ensures w.item <= 6
  {
    if a.macro == ATTACK then
      var open := MainMoves(item, ATTACK_ITEM) + Press(BUTTON_A);
      var dst := Requested(bc, a.targetMask);
      if dst < 0 then Written(open, ATTACK_ITEM, false, NoValidTarget)
      else
        FirstEnemyExact(bc, 4);
        Written(open + TargetMoves(Cursor(bc), dst) + Press(BUTTON_A), ATTACK_ITEM, true, OK)
    else if a.macro == DEFEND then Written(MainMoves(item, DEFEND_ITEM) + Press(BUTTON_A), DEFEND_ITEM, true, OK)
    else if a.macro == FOCUS then Written(MainMoves(item, FOCUS_ITEM) + Press(BUTTON_A), FOCUS_ITEM, true, OK)
    else Written([], item, false, OK)
  }

  /** The actions from number i on; between two actions one neutral frame. */
  function WriteActions(bc: BattleContext, item: u8, spec: TurnPlanSpec, i: nat): (w: Written)
    requires bc.Valid() && item <= 6 && i <= |spec|
    decreases |spec| - i
  {
    if i == |spec| then Written([], item, true, OK)
    else
      var gap := Neutrals(if i > 0 then 1 else 0);
      var w := WriteAction(bc, item, spec[i]);
      if !w.ok then w.(frames := gap + w.frames)
      else
        var rest := WriteActions(bc, w.item, spec, i + 1);
        rest.(frames := gap + w.frames + rest.frames)
  }

  predicate Rotates(bc: BattleContext) { bc.turnCount == 1 && bc.battlePhase == 4 }

  function Opening(bc: BattleContext): seq<InputFrame> {
    (if Rotates(bc) then Press(BUTTON_A) else []) + (Neutrals(1) + Press(BUTTON_A))
  }

  /** What a fresh writer produces for a turn whose fake-attack count fits the 8-bit loop counter. */
  function WriteTurn(bc: BattleContext, plan: TurnPlan): Written
    requires bc.Valid() && plan.fakeAttackCount <= 255
  {
    var w := WriteActions(bc, ATTACK_ITEM, plan.spec, 0);
    w.(frames := Opening(bc) + FakeAttacks(ATTACK_ITEM, plan.fakeAttackCount) + w.frames)
  }

  // ---------------------------------------------------------------- the fake-attack loop

  /** The loop between two rounds: its 8-bit counter, the highlighted item and the frames so far. */
  datatype Looping = Looping(i: u8, item: u8, frames: seq<InputFrame>)

  function FakeRound(l: Looping): Looping {
    Looping((l.i + 1) % 256, ATTACK_ITEM, l.frames + FakeAttack(l.item))
  }

  function AfterRounds(l: Looping, k: nat): Looping {
    if k == 0 then l else FakeRound(AfterRounds(l, k - 1))
  }

  /** The guard first fails after k rounds. */
  ghost predicate LeavesAfter(l: Looping, count: u32, k: nat) {
    AfterRounds(l, k).i >= count && forall j: nat | j < k :: AfterRounds(l, j).i < count
  }

  lemma {:induction false} CounterWraps(l: Looping, k: nat)
    requires l.i == 0
    ensures AfterRounds(l, k).i == k % 256
  {
    if k > 0 { CounterWraps(l, k - 1); }
  }

  /** Main result: the loop over an 8-bit counter leaves after some number of rounds exactly when the count is at most
      255, and then after that many. */
  lemma FakeLoopEndsExactlyWhen(l: Looping, count: u32)
    requires l.i == 0
    ensures (exists k: nat :: LeavesAfter(l, count, k)) <==> count <= 255
    ensures count <= 255 ==> LeavesAfter(l, count, count)
  {
    forall k: nat ensures AfterRounds(l, k).i == k % 256 { CounterWraps(l, k); }
    hide AfterRounds;
    if count <= 255 {
      forall j: nat | j < count ensures AfterRounds(l, j).i < count { assert j % 256 == j; }
      assert AfterRounds(l, count).i == count % 256 == count;
      assert LeavesAfter(l, count, count);
    } else {
      forall k: nat ensures !LeavesAfter(l, count, k) { assert AfterRounds(l, k).i <= 255; }
    }
  }

  /** It can leave after no other number. */
  lemma LeavesOnce(l: Looping, count: u32, k: nat)
    requires l.i == 0 && LeavesAfter(l, count, k)
    ensures count <= 255 && k == count
  {
    FakeLoopEndsExactlyWhen(l, count);
    hide AfterRounds;
  }

  lemma NextRound(l: Looping, k: nat)
    ensures AfterRounds(l, 0) == l && AfterRounds(l, k + 1) == FakeRound(AfterRounds(l, k))
  {
  }

  lemma {:induction false} RoundsAre(l: Looping, k: nat)
    ensures AfterRounds(l, k).frames + FakeAttacks(AfterRounds(l, k).item, 0) == l.frames + FakeAttacks(l.item, k)
    ensures k > 0 ==> AfterRounds(l, k).item == ATTACK_ITEM
    decreases k
  {
    hide MainMoves, FakeAttack;
    if k > 0 {
      var next := FakeRound(l);
      RoundsShift(l, k - 1);
      RoundsAre(next, k - 1);
      assert next.frames + FakeAttacks(next.item, k - 1) == l.frames + (FakeAttack(l.item) + FakeAttacks(ATTACK_ITEM, k - 1));
    }
  }

  lemma NotYetLeft(l: Looping, count: u32, k: nat)
    requires l.i == 0 && forall j: nat | j <= k :: AfterRounds(l, j).i < count
    ensures count > k || count > 255
  {
    FakeLoopEndsExactlyWhen(l, count);
    hide AfterRounds;
  }

  lemma LastMoves(item: u8)
    ensures FakeAttacks(item, 0) == MainMoves(item, ATTACK_ITEM)
  {
  }

  lemma {:induction false} RoundsShift(l: Looping, k: nat)
    ensures AfterRounds(l, k + 1) == AfterRounds(FakeRound(l), k)
  {
    hide FakeRound;
    if k > 0 { RoundsShift(l, k - 1); } else { assert AfterRounds(l, 1) == FakeRound(AfterRounds(l, 0)); }
  }

  // ---------------------------------------------------------------- the writer

  class Writer {
    const bc: BattleContext
    var item: u8
    var out: seq<InputFrame>

    constructor (bc: BattleContext)
      ensures this.bc == bc && item == ATTACK_ITEM && out == []
    {
      this.bc, item, out := bc, ATTACK_ITEM, [];
    }

    method Tap(button: u16)
      modifies this`out
      ensures out == old(out) + Press(button)
    {
      out := out + [NEUTRAL.(buttons := button)];
      out := out + [NEUTRAL];
    }

    method Neutral(n: nat)
      modifies this`out
      ensures out == old(out) + Neutrals(n)
    {
      for i := 0 to n
        invariant out == old(out) + Neutrals(i)
      {
        out := out + [NEUTRAL];
      }
    }

    method NavMainTo(target: u8)
      requires item <= 6
      modifies this
      ensures item == (if target > 6 then 6 else target) && out == old(out) + MainMoves(old(item), item)
    {
      var dst := if target > 6 then 6 else target;
      ghost var start, frames := item, out;
      while item < dst
        invariant item <= 6 && (start <= dst ==> start <= item <= dst) && (start > dst ==> item == start)
        invariant start <= dst ==> out == frames + Times(Press(BUTTON_DOWN) + Neutrals(2), item - start)
        invariant start > dst ==> out == frames
        decreases dst - item
      {
        Tap(BUTTON_DOWN);
        Neutral(2);
        item := item + 1;
      }
      while item > dst
        invariant item <= 6 && (start <= dst ==> item == dst) && (start > dst ==> dst <= item <= start)
        invariant start <= dst ==> out == frames + Times(Press(BUTTON_DOWN) + Neutrals(2), dst - start)
        invariant start > dst ==> out == frames + Times(Press(BUTTON_UP) + Neutrals(2), start - item)
        decreases item
      {
        Tap(BUTTON_UP);
        Neutral(2);
        item := item - 1;
      }
    }

    method FirstAliveEnemyIndex() returns (r: int)
      requires bc.Valid()
      ensures r == Cursor(bc)
    {
      for i := 4 to 12
        invariant Cursor(bc) == FirstEnemyFrom(bc, i)
      {
        if IsEnemy(bc.slots[i]) { return i - 4; }
      }
      return -1;
    }

    method ResolveRequestedTargetIndex(mask: bv32) returns (r: int)
      requires bc.Valid()
      ensures r == Requested(bc, mask)
    {
      hide Has, Bit;
      var base := FirstAliveEnemyIndex();
      if base < 0 { return -1; }
      if mask == 0 { return base; }
      for i := 4 to 12
        invariant FirstHitFrom(bc, mask, 4) == FirstHitFrom(bc, mask, i)
      {
        if CanBeHit(bc.slots[i]) && Has(mask, Bit(i)) { return i - 4; }
      }
      return -1;
    }

    method NavTargetTo(cur: int, dst: int)
      requires -1 <= cur < 8 && -1 <= dst < 8
      modifies this`out
      ensures out == old(out) + if cur < 0 || dst < 0 then [] else TargetMoves(cur, dst)
    {
      if cur < 0 || dst < 0 { return; }
      var down := (dst - cur + 8) % 8;
      var up := (cur - dst + 8) % 8;
      if down <= up {
        for i := 0 to down
          invariant out == old(out) + Times(Press(BUTTON_DOWN), i)
        {
          Tap(BUTTON_DOWN);
        }
      } else {
        for i := 0 to up
          invariant out == old(out) + Times(Press(BUTTON_UP), i)
        {
          Tap(BUTTON_UP);
        }
      }
    }

    method Attack(mask: bv32) returns (ok: bool, err: MaterializeErr)
      requires bc.Valid() && item <= 6
      modifies this
      ensures item == ATTACK_ITEM
      ensures ok == (Requested(bc, mask) >= 0) && err == (if ok then OK else NoValidTarget)
      ensures out == old(out) + (MainMoves(old(item), ATTACK_ITEM) + Press(BUTTON_A)) +
                     if ok then TargetMoves(Cursor(bc), Requested(bc, mask)) + Press(BUTTON_A) else []
    {
      FirstEnemyExact(bc, 4);
      FirstHitExact(bc, mask, 4);
      NavMainTo(ATTACK_ITEM);
      Tap(BUTTON_A);
      var cur := FirstAliveEnemyIndex();
      var dst := ResolveRequestedTargetIndex(mask);
      if dst < 0 { return false, NoValidTarget; }
      NavTargetTo(cur, dst);
      Tap(BUTTON_A);
      item := ATTACK_ITEM;
      return true, OK;
    }

    /** The loop, for at most the given number of rounds: the counter is 8 bits wide. */
    method FakeAttackRounds(count: u32, limit: nat) returns (ended: bool)
      requires item <= 6
      modifies this
      ensures ended <==> count <= limit && count <= 255
      ensures ended ==> item == ATTACK_ITEM && out == old(out) + FakeAttacks(old(item), count)
      ensures !ended ==> var l := AfterRounds(Looping(0, old(item), old(out)), limit); item == l.item && out == l.frames
    {
      hide MainMoves, AfterRounds, FakeAttacks;
      ghost var start := Looping(0, item, out);
      var i: u8 := 0;
      var rounds := 0;
      NextRound(start, 0);
      while i < count && rounds < limit
        invariant rounds <= limit && item <= 6 && AfterRounds(start, rounds) == Looping(i, item, out)
        invariant forall j: nat | j < rounds :: AfterRounds(start, j).i < count
        decreases limit - rounds
      {
        NextRound(start, rounds);
        NavMainTo(ATTACK_ITEM);
        Tap(BUTTON_A);
        Neutral(1);
        Tap(BUTTON_B);
        Neutral(1);
        i := (i + 1) % 256;
        rounds := rounds + 1;
      }
      if i < count {
        NotYetLeft(start, count, limit);
        return false;
      }
      assert LeavesAfter(start, count, rounds);
      LeavesOnce(start, count, rounds);
      RoundsAre(start, rounds);
      LastMoves(item);
      NavMainTo(ATTACK_ITEM);
      return true;
    }

    method Action(a: ActionPlan) returns (ok: bool, err: MaterializeErr)
      requires bc.Valid() && item <= 6
      modifies this
      ensures var w := WriteAction(bc, old(item), a);
              out == old(out) + w.frames && item == w.item && ok == w.ok && err == w.err
    {
      hide MainMoves, TargetMoves, Requested;
      ok, err := true, OK;
      if a.macro == ATTACK {
        ok, err := Attack(a.targetMask);
      } else if a.macro == DEFEND {
        NavMainTo(DEFEND_ITEM);
        Tap(BUTTON_A);
      } else if a.macro == FOCUS {
        NavMainTo(FOCUS_ITEM);
        Tap(BUTTON_A);
      } else {
        ok := false;
      }
    }

    method WriteSpec(spec: TurnPlanSpec) returns (ok: bool, err: MaterializeErr)
      requires bc.Valid() && item <= 6
      modifies this
      ensures var w := WriteActions(bc, old(item), spec, 0); out == old(out) + w.frames && ok == w.ok && err == w.err
    {
      hide WriteAction;
      ok, err := true, OK;
      ghost var head, all := out, WriteActions(bc, item, spec, 0);
      for i := 0 to |spec|
        invariant item <= 6 && ok && err == OK
        invariant var rest := WriteActions(bc, item, spec, i);
                  out + rest.frames == head + all.frames && rest.ok == all.ok && rest.err == all.err
      {
        ghost var before, start := out, item;
        if i > 0 { Neutral(1); }
        var done, problem := Action(spec[i]);
        ghost var w, rest := WriteAction(bc, start, spec[i]), WriteActions(bc, item, spec, i + 1);
        assert out == before + (Neutrals(if i > 0 then 1 else 0) + w.frames);
        if !done { return false, problem; }
        assert before + (Neutrals(if i > 0 then 1 else 0) + w.frames + rest.frames) == out + rest.frames;
      }
    }

    /** The turn, unless the fake-attack loop does not end. */
    method BuildTurn(plan: TurnPlan) returns (ended: bool, ok: bool, err: MaterializeErr)
      requires bc.Valid() && item == ATTACK_ITEM
      modifies this
      ensures ended <==> plan.fakeAttackCount <= 255
      ensures ended ==> var w := WriteTurn(bc, plan); out == w.frames && ok == w.ok && err == w.err
    {
      hide FakeAttacks, WriteActions;
      out := [];
      if bc.turnCount == 1 && bc.battlePhase == 4 { Tap(BUTTON_A); }
      Neutral(1);
      Tap(BUTTON_A);
      assert out == Opening(bc);
      ended := FakeAttackRounds(plan.fakeAttackCount, 255);
      if !ended { return false, false, OK; }
      ok, err := WriteSpec(plan.spec);
    }
  }
}
