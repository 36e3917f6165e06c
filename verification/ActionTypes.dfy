/** The values the planning, wire and script layers exchange. */
module ActionTypes {
  import opened Bytes

  /** BattleAction is a byte on the wire; any byte can arrive in a decoded path. */
  type BattleAction = u8
  const ATTACK: BattleAction := 0
  const DEFEND: BattleAction := 1
  const FOCUS: BattleAction := 2

  const NO_ITEM: u16 := 0xFFFF

  datatype ActionPlan = ActionPlan(
    actorSlot: u8, isPrelude: u8, macro: BattleAction, targetMask: bv32, itemId: u16)

  type TurnPlanSpec = seq<ActionPlan>

  datatype TurnPlan = TurnPlan(fakeAttackCount: u32, spec: TurnPlanSpec)

  type BattlePath = seq<TurnPlan>

  datatype InputFrame = InputFrame(
    buttons: u16, mainX: u8, mainY: u8, cX: u8, cY: u8, trigL: u8, trigR: u8)

  const NEUTRAL := InputFrame(0, 128, 128, 128, 128, 0, 0)

  /** The part of a battle slot the planners look at; slots 4..11 are the enemies. */
  datatype BattleSlot = BattleSlot(present: u8, isPlayer: u8, isAlive: u8)

  datatype BattleContext = BattleContext(slots: seq<BattleSlot>, turnCount: u32, battlePhase: u32) {
    predicate Valid() { |slots| == 12 }
  }
}
