/** The key-value context a script runs on: key ids and the variants a key can hold. */
module ScriptContext {
  import opened Bytes
  import opened ActionTypes

  type KeyId = u16

  const RUN_HIT_PC: KeyId := 0x0000
  const RUN_HIT_BP_KEY: KeyId := 0x0001
  const DW_RUN_OUTCOME_CODE: KeyId := 0x0002
  const ELAPSED_MS: KeyId := 0x0003
  const VI_LAST: KeyId := 0x0021
  const POLL_MS: KeyId := 0x0022
  const RUN_MS: KeyId := 0x0040
  const VI_STALL_MS: KeyId := 0x0041
  const PLAN_DONE: KeyId := 0x0061
  const PRED_COUNT: KeyId := 0x0080
  const PRED_TABLE: KeyId := 0x0081
  const PRED_BASELINES: KeyId := 0x0082
  const PRED_TOTAL: KeyId := 0x0083
  const PRED_PASSED: KeyId := 0x0084
  const PRED_ALL_PASSED: KeyId := 0x0085
  const PRED_FIRST_FAILED: KeyId := 0x0086
  const ACTIVE_TURN: KeyId := 0x0300
  const INITIAL_INPUT: KeyId := 0x0301
  const BATTLE_OUTCOME: KeyId := 0x0302
  const INPUTPLAN_FRAME_COUNT: KeyId := 0x0311
  const INPUTPLAN: KeyId := 0x0312
  const CTX_BLOB: KeyId := 0x0320
  const NUM_TURN_PLANS: KeyId := 0x0330
  const TURN_PLANS: KeyId := 0x0331
  const LAST_TURN: KeyId := 0x0332
  const PLAN_MATERIALIZE_ERR: KeyId := 0x0333

  /** Floating-point values are kept as their 4- or 8-byte patterns. */
  datatype Value =
    | U8(v8: u8)
    | U16(v16: u16)
    | U32(v32: u32)
    | F32(f32: u32)
    | F64(f64: u64)
    | Str(bytes: seq<u8>)
    | Frame(frame: InputFrame)
    | Path(path: BattlePath)

  type Context = map<KeyId, Value>

  /** The typed getter: an absent key, or one holding another type, leaves the default. */
  function GetU32(c: Context, k: KeyId, default: u32): u32 {
    if k in c && c[k].U32? then c[k].v32 else default
  }
}
