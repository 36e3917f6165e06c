/** The battle-runner job payload: header, initial frame, predicate table, program blob, battle path. */
module PayloadCodec {
  import opened Bytes
  import opened ActionTypes
  import opened ScriptContext
  import opened PathCodec
  import opened PredicatePacking

  const PK_BATTLE_TURN_RUNNER: u8 := 3
  const VERSION: u32 := 3
  const FRAME_SIZE: nat := 8
  const HEADER_SIZE: nat := 21

  datatype EncodeSpec = EncodeSpec(
    runMs: u32, viStallMs: u32, initial: InputFrame, predicates: seq<Spec>, path: BattlePath)

  // ---------------------------------------------------------------- encoding

  function FrameBytes(f: InputFrame): (b: seq<u8>)
    ensures |b| == FRAME_SIZE
  {
    Le16(f.buttons) + [f.mainX, f.mainY, f.cX, f.cY, f.trigL, f.trigR]
  }

  function GetFrame(b: seq<u8>, p: nat): InputFrame
    requires p + FRAME_SIZE <= |b|
  {
    InputFrame(Get16(b, p), b[p + 2], b[p + 3], b[p + 4], b[p + 5], b[p + 6], b[p + 7])
  }

  function HeaderBytes(version: u32, runMs: u32, viStallMs: u32, initial: InputFrame): (b: seq<u8>)
    ensures |b| == HEADER_SIZE
  {
    [PK_BATTLE_TURN_RUNNER] + Le32(version) + Le32(runMs) + Le32(viStallMs) + FrameBytes(initial)
  }

  /** A 32-bit count, then that many units of data. */
  function Counted(count: nat, data: seq<u8>): seq<u8> { Le32(Wrap32(count)) + data }

  function PayloadBytes(s: EncodeSpec, records: seq<Record>, blob: seq<u8>): seq<u8> {
    HeaderBytes(VERSION, s.runMs, s.viStallMs, s.initial) +
    (Counted(|records|, TableBytes(records)) + (Counted(|blob|, blob) + Counted(|PathBytes(s.path)|, PathBytes(s.path))))
  }

  method EncodePayload(s: EncodeSpec, hash: seq<u8> -> nat) returns (out: seq<u8>, ghost records: seq<Record>)
    requires Fits(s.predicates)
    ensures |records| == |s.predicates|
    ensures forall i | 0 <= i < |records| ::
              RecordFor(records[i], s.predicates[i], Programs(s.predicates), |s.predicates| * RECORD_SIZE)
    ensures out == PayloadBytes(s, records, Concat(Programs(s.predicates)))
  {
    hide Le32, FrameBytes, TableBytes, PathBytes, Fits, RecordFor, Concat, Programs;
    out := [PK_BATTLE_TURN_RUNNER];
    out := out + Le32(VERSION);
    out := out + Le32(s.runMs);
    out := out + Le32(s.viStallMs);
    out := out + FrameBytes(s.initial);
    var table, blob := BuildTable(s.predicates, hash);
    records := table;
    ghost var header := out;
    out := out + Le32(Wrap32(|table|));
    if |table| != 0 { out := out + TableBytes(table); } else { assert TableBytes(table) == []; }
    assert out == header + Counted(|table|, TableBytes(table));
    out := out + Le32(Wrap32(|blob|));
    if |blob| != 0 { out := out + blob; }
    var plans := EncodeTurnPlans(s.path);
    out := out + Le32(Wrap32(|plans|));
    if |plans| != 0 { out := out + plans; }
  }

  // ---------------------------------------------------------------- decoding

  datatype Payload = Payload(
    runMs: u32, viStallMs: u32, initial: InputFrame,
    predCount: u32, predTable: seq<u8>, baselines: seq<u8>, path: BattlePath)

  /** Overrun: the path length points behind the buffer, where the decoder would read on unchecked. */
  datatype Outcome = Accepted(payload: Payload) | Rejected | Overrun

  function Zeros(n: nat): (z: seq<u8>)
    ensures |z| == n && forall i | 0 <= i < n :: z[i] == 0
  {
    seq(n, i => 0)
  }

  /** A counted block of units of the given size; None when it does not fit. */
  function GetCounted(b: seq<u8>, p: nat, unit: nat): (r: Option<(seq<u8>, nat)>)
    ensures r.Some? ==> p + 4 <= r.value.1 <= |b| && |r.value.0| == Get32(b, p) * unit
  {
    if p + 4 > |b| then None
    else
      var n := Get32(b, p) * unit;
      if p + 4 + n > |b| then None else Some((b[p + 4..p + 4 + n], p + 4 + n))
  }

  /** Version 2 has no blob. */
  function GetBlob(b: seq<u8>, p: nat, version: u32): (r: Option<(seq<u8>, nat)>)
    requires p <= |b|
    ensures r.Some? ==> r.value.1 <= |b|
  {
    if version >= 3 then GetCounted(b, p, 1) else Some(([], p))
  }

  /** The path is decoded from its own block; the decoder ignores whether that worked and keeps the turns it got. */
  function Body(b: seq<u8>, version: u32): Outcome
    requires |b| >= HEADER_SIZE + 4
  {
    match GetCounted(b, HEADER_SIZE, RECORD_SIZE)
    case None => Rejected
    case Some((table, p)) =>
      match GetBlob(b, p, version)
      case None => Rejected
      case Some((blob, q)) =>
        if q + 4 > |b| then Rejected
        else
          match GetCounted(b, q, 1)
          case None => Overrun
          case Some((plans, _)) =>
            Accepted(Payload(Get32(b, 5), Get32(b, 9), GetFrame(b, 13), Get32(b, HEADER_SIZE),
                             table + blob, Zeros(Get32(b, HEADER_SIZE) * 8), DecodePath(plans).path))
  }

  function Decode(b: seq<u8>): Outcome {
    if |b| < HEADER_SIZE + 4 || b[0] != PK_BATTLE_TURN_RUNNER then Rejected
    else
      var version := Get32(b, 1);
      if version < 2 || version > 3 then Rejected else Body(b, version)
  }

  /** The keys a decoded payload sets, over whatever the context held. */
  function ContextOf(base: Context, d: Payload): Context
    requires |d.path| < 0x1_0000_0000
  {
    base[RUN_MS := U32(d.runMs)][VI_STALL_MS := U32(d.viStallMs)]
        [INITIAL_INPUT := Frame(d.initial)][NUM_TURN_PLANS := U32(0)][LAST_TURN := U32(|d.path|)]
        [PRED_COUNT := U32(d.predCount)][PRED_TABLE := Str(d.predTable)][PRED_BASELINES := Str(d.baselines)]
        [PRED_PASSED := U32(0)][PRED_TOTAL := U32(0)][PRED_ALL_PASSED := U32(1)]
        [TURN_PLANS := Path(d.path)]
  }

  /** Main result: the keys a decoded job sets, by number; all others stay as they were. */
  lemma JobKeys(base: Context, d: Payload)
    requires |d.path| < 0x1_0000_0000
    ensures var c := ContextOf(base, d);
            && (forall k :: k in c <==> k in base || k in {0x40, 0x41, 0x301, 0x330, 0x332, 0x80, 0x81, 0x82, 0x84, 0x83, 0x85, 0x331})
            && c[0x40] == U32(d.runMs) && c[0x41] == U32(d.viStallMs) && c[0x301] == Frame(d.initial)
            && c[0x330] == U32(0) && c[0x332] == U32(|d.path|) && c[0x331] == Path(d.path)
            && c[0x80] == U32(d.predCount) && c[0x81] == Str(d.predTable) && c[0x82] == Str(d.baselines)
            && c[0x83] == U32(0) && c[0x84] == U32(0) && c[0x85] == U32(1)
            && forall k | k in base && k !in {0x40, 0x41, 0x301, 0x330, 0x332, 0x80, 0x81, 0x82, 0x84, 0x83, 0x85, 0x331} :: c[k] == base[k]
  {
  }

  method DecodePayload(b: seq<u8>, base: Context) returns (r: Outcome, ctx: Context)
    requires |b| < 0x1_0000_0000
    ensures r == Decode(b)
    ensures r.Accepted? ==> |r.payload.path| < 0x2000_0000 && ctx == ContextOf(base, r.payload)
    ensures !r.Accepted? ==> ctx == base
  {
    hide Get32, DecodePath, Body, GetFrame, ContextOf;
    ctx := base;
    if |b| < 1 + 4 + 4 + 4 + FRAME_SIZE + 4 { return Rejected, ctx; }
    if b[0] != PK_BATTLE_TURN_RUNNER { return Rejected, ctx; }
    var version := Get32(b, 1);
    if version < 2 || version > 3 { return Rejected, ctx; }
    BodyCases(b, version);
    var runMs, viStallMs := Get32(b, 5), Get32(b, 9);
    var initial := GetFrame(b, 13);
    var p: nat := 13 + FRAME_SIZE;
    var predCount := Get32(b, p);
    p := p + 4;
    var table: seq<u8>, bases: seq<u8> := [], [];
    if predCount != 0 {
      var bytes := predCount * RECORD_SIZE;
      if p + bytes > |b| { return Rejected, ctx; }
      table := table + b[p..p + bytes];
      bases := Zeros(predCount * 8);
      p := p + bytes;
    }
    assert table == b[HEADER_SIZE + 4..p] && GetCounted(b, HEADER_SIZE, RECORD_SIZE) == Some((table, p));
    ghost var records, q := table, p;
    if version >= 3 {
      if p + 4 > |b| { return Rejected, ctx; }
      var blobSize := Get32(b, p);
      p := p + 4;
      if blobSize != 0 {
        if p + blobSize > |b| { return Rejected, ctx; }
        table := table + b[p..p + blobSize];
        p := p + blobSize;
      }
    }
    assert GetBlob(b, q, version).Some? && GetBlob(b, q, version).value.1 == p && table == records + GetBlob(b, q, version).value.0;
    if p + 4 > |b| { return Rejected, ctx; }
    var planSize := Get32(b, p);
    p := p + 4;
    if p + planSize > |b| { return Overrun, ctx; }
    var _, path := DecodeTurnPlans(b[p..p + planSize]);
    assert bases == Zeros(predCount * 8);
    var d := Payload(runMs, viStallMs, initial, predCount, table, bases, path);
    return Accepted(d), ContextOf(base, d);
  }

  /** The body block by block. */
  lemma BodyCases(b: seq<u8>, version: u32)
    requires |b| >= HEADER_SIZE + 4
    ensures var t := GetCounted(b, HEADER_SIZE, RECORD_SIZE);
            && (t.None? ==> Body(b, version) == Rejected)
            && (t.Some? ==>
                  var blob := GetBlob(b, t.value.1, version);
                  && (blob.None? || blob.value.1 + 4 > |b| ==> Body(b, version) == Rejected)
                  && (blob.Some? && blob.value.1 + 4 <= |b| ==>
                        var plans := GetCounted(b, blob.value.1, 1);
                        Body(b, version) ==
                          if plans.None? then Overrun
                          else Accepted(Payload(Get32(b, 5), Get32(b, 9), GetFrame(b, 13), Get32(b, HEADER_SIZE), t.value.0 + blob.value.0,
                                                Zeros(Get32(b, HEADER_SIZE) * 8), DecodePath(plans.value.0).path))))
  {
    hide Get32, DecodePath, GetFrame, GetCounted, GetBlob, Zeros;
  }

  // ---------------------------------------------------------------- where everything stands

  /** Main result: the fixed part of a job: its kind, the version, the two timeouts, and the frame to begin with. */
  lemma HeaderLayout(s: EncodeSpec, records: seq<Record>, blob: seq<u8>)
    ensures var b, f := PayloadBytes(s, records, blob), s.initial;
            && |b| >= 25 && b[0] == 3 && Spells(b, 1, 3) && Spells(b, 5, s.runMs) && Spells(b, 9, s.viStallMs)
            && f.buttons == b[13] as int + 256 * b[14] as int && f.mainX == b[15] && f.mainY == b[16] && f.cX == b[17] && f.cY == b[18]
            && f.trigL == b[19] && f.trigR == b[20]
  {
    var b := PayloadBytes(s, records, blob);
    var kind, version, run, stall, frame := [PK_BATTLE_TURN_RUNNER], Le32(VERSION), Le32(s.runMs), Le32(s.viStallMs), FrameBytes(s.initial);
    var rest := Counted(|records|, TableBytes(records)) + (Counted(|blob|, blob) + Counted(|PathBytes(s.path)|, PathBytes(s.path)));
    FrameLayout(s.initial);
    hide Le32, TableBytes, PathBytes, Counted, Spells, FrameBytes;
    assert b == kind + version + (run + stall + frame + rest);
    SpellsAt(kind, VERSION, run + stall + frame + rest);
    assert b == (kind + version) + run + (stall + frame + rest);
    SpellsAt(kind + version, s.runMs, stall + frame + rest);
    assert b == (kind + version + run) + stall + (frame + rest);
    SpellsAt(kind + version + run, s.viStallMs, frame + rest);
    assert b[13..21] == frame;
    assert |Counted(|records|, TableBytes(records))| >= 4 by { CountedSize(|records|, TableBytes(records)); }
  }

  lemma CountedSize(count: nat, data: seq<u8>)
    ensures |Counted(count, data)| == 4 + |data|
  {
  }

  lemma FrameLayout(f: InputFrame)
    ensures var b := FrameBytes(f);
            && f.buttons == b[0] as int + 256 * b[1] as int && f.mainX == b[2] && f.mainY == b[3] && f.cX == b[4] && f.cY == b[5]
            && f.trigL == b[6] && f.trigR == b[7]
  {
  }

  /** A block stands at p: four bytes of count, then the data. */
  ghost predicate BlockAt(b: seq<u8>, p: nat, count: nat, data: seq<u8>) {
    Spells(b, p, count % 4294967296) && p + 4 + |data| <= |b| && b[p + 4..p + 4 + |data|] == data
  }

  lemma CountedAt(pre: seq<u8>, count: nat, data: seq<u8>, post: seq<u8>)
    ensures BlockAt(pre + Counted(count, data) + post, |pre|, count, data)
  {
    hide Le32, Spells;
    SpellsAt(pre, Wrap32(count), data + post);
    assert pre + Counted(count, data) + post == pre + Le32(Wrap32(count)) + (data + post);
  }

  lemma ThreeBlocks(head: seq<u8>, x: seq<u8>, y: seq<u8>, z: seq<u8>)
    ensures var b := head + (x + (y + z)); b == head + x + (y + z) && b == (head + x) + y + z && b == (head + x + y) + z + []
  {
  }

  /** Main result: the blocks behind it: the records by number, the programs and the path by size. */
  lemma BlockLayout(s: EncodeSpec, records: seq<Record>, blob: seq<u8>)
    ensures var b, n, path := PayloadBytes(s, records, blob), |records| * 36, PathBytes(s.path);
            && |b| == 33 + n + |blob| + |path|
            && BlockAt(b, 21, |records|, TableBytes(records)) && BlockAt(b, 25 + n, |blob|, blob) && BlockAt(b, 29 + n + |blob|, |path|, path)
  {
    hide HeaderBytes, TableBytes, PathBytes, BlockAt, Counted;
    BlocksBehind(HeaderBytes(VERSION, s.runMs, s.viStallMs, s.initial), |records|, TableBytes(records), blob, PathBytes(s.path));
  }

  lemma BlocksBehind(head: seq<u8>, count: nat, table: seq<u8>, blob: seq<u8>, path: seq<u8>)
    ensures var b, h, n := head + (Counted(count, table) + (Counted(|blob|, blob) + Counted(|path|, path))), |head|, |table|;
            && |b| == h + 12 + n + |blob| + |path|
            && BlockAt(b, h, count, table) && BlockAt(b, h + 4 + n, |blob|, blob) && BlockAt(b, h + 8 + n + |blob|, |path|, path)
  {
    var x, y, z := Counted(count, table), Counted(|blob|, blob), Counted(|path|, path);
    CountedSize(count, table);
    CountedSize(|blob|, blob);
    CountedSize(|path|, path);
    hide BlockAt, Counted;
    ThreeBlocks(head, x, y, z);
    CountedAt(head, count, table, y + z);
    CountedAt(head + x, |blob|, blob, z);
    CountedAt(head + x + y, |path|, path, []);
  }

  // ---------------------------------------------------------------- round trip

  lemma GetFrameBytes(pre: seq<u8>, f: InputFrame, post: seq<u8>)
    ensures GetFrame(pre + FrameBytes(f) + post, |pre|) == f
  {
    var rest := [f.mainX, f.mainY, f.cX, f.cY, f.trigL, f.trigR];
    assert pre + FrameBytes(f) + post == pre + Le16(f.buttons) + (rest + post);
    Get16Le16(pre, f.buttons, rest + post);
  }

  lemma GetCountedBytes(pre: seq<u8>, count: u32, unit: nat, data: seq<u8>, post: seq<u8>)
    requires |data| == count * unit
    ensures GetCounted(pre + Counted(count, data) + post, |pre|, unit) == Some((data, |pre| + 4 + |data|))
    ensures Get32(pre + Counted(count, data) + post, |pre|) == count
  {
    hide Le32, Get32;
    var b := pre + Counted(count, data) + post;
    assert b == pre + Le32(count) + (data + post);
    Get32Le32(pre, count, data + post);
    assert b[|pre| + 4..|pre| + 4 + |data|] == data;
  }

  lemma HeaderReads(s: EncodeSpec, post: seq<u8>)
    ensures var b := HeaderBytes(VERSION, s.runMs, s.viStallMs, s.initial) + post;
            && b[0] == PK_BATTLE_TURN_RUNNER && Get32(b, 1) == VERSION && Get32(b, 5) == s.runMs
            && Get32(b, 9) == s.viStallMs && GetFrame(b, 13) == s.initial
  {
    hide Le32, Get32, FrameBytes, GetFrame;
    var b := HeaderBytes(VERSION, s.runMs, s.viStallMs, s.initial) + post;
    var x0, x1, x2, x3, x4 := [PK_BATTLE_TURN_RUNNER], Le32(VERSION), Le32(s.runMs), Le32(s.viStallMs), FrameBytes(s.initial);
    assert b == x0 + x1 + (x2 + x3 + x4 + post);
    Get32Le32(x0, VERSION, x2 + x3 + x4 + post);
    assert b == (x0 + x1) + x2 + (x3 + x4 + post);
    Get32Le32(x0 + x1, s.runMs, x3 + x4 + post);
    assert b == (x0 + x1 + x2) + x3 + (x4 + post);
    Get32Le32(x0 + x1 + x2, s.viStallMs, x4 + post);
    assert b == (x0 + x1 + x2 + x3) + x4 + post;
    GetFrameBytes(x0 + x1 + x2 + x3, s.initial, post);
  }

  lemma CountedLength(n: nat, data: seq<u8>)
    ensures |Counted(n, data)| == 4 + |data|
  {
  }

  lemma Regroup(h: seq<u8>, x: seq<u8>, y: seq<u8>, z: seq<u8>)
    ensures h + (x + (y + z)) == h + x + (y + z) == (h + x) + y + z == (h + x + y) + z + []
  {
  }

  /** Three counted blocks behind a header are found where they were put. */
  lemma BlocksRead(h: seq<u8>, n: u32, table: seq<u8>, blob: seq<u8>, plans: seq<u8>)
    requires |h| == HEADER_SIZE && |table| == n * RECORD_SIZE
    requires |blob| < 0x1_0000_0000 && |plans| < 0x1_0000_0000
    ensures var b := h + (Counted(n, table) + (Counted(|blob|, blob) + Counted(|plans|, plans)));
            && |b| >= HEADER_SIZE + 4
            && Get32(b, HEADER_SIZE) == n
            && Body(b, VERSION) == Accepted(Payload(
                 Get32(b, 5), Get32(b, 9), GetFrame(b, 13), n, table + blob, Zeros(n * 8), DecodePath(plans).path))
  {
    hide Get32, GetFrame, Counted, GetCounted, DecodePath, Zeros;
    var x, y, z := Counted(n, table), Counted(|blob|, blob), Counted(|plans|, plans);
    var b := h + (x + (y + z));
    Regroup(h, x, y, z);
    CountedLength(n, table);
    CountedLength(|blob|, blob);
    CountedLength(|plans|, plans);
    GetCountedBytes(h, n, RECORD_SIZE, table, y + z);
    GetCountedBytes(h + x, |blob|, 1, blob, z);
    GetCountedBytes(h + x + y, |plans|, 1, plans, []);
  }

  /** Main result: an encoded job decodes to its timeouts, its frame, the built predicate table followed by the
      program blob, zeroed baselines, and its path up to what the path codec keeps. */
  lemma PayloadRoundTrip(s: EncodeSpec, records: seq<Record>, blob: seq<u8>)
    requires |records| < 0x1_0000_0000 && |blob| < 0x1_0000_0000 && |PathBytes(s.path)| < 0x1_0000_0000
    requires Countable(s.path)
    ensures Decode(PayloadBytes(s, records, blob)) == Accepted(Payload(
              s.runMs, s.viStallMs, s.initial, |records|, TableBytes(records) + blob,
              Zeros(|records| * 8), WirePath(s.path)))
  {
    hide Get32, HeaderBytes, TableBytes, PathBytes, GetFrame, Counted, Body, WirePath, DecodePath, Zeros;
    var plans := PathBytes(s.path);
    var x, y, z := Counted(|records|, TableBytes(records)), Counted(|blob|, blob), Counted(|plans|, plans);
    HeaderReads(s, x + (y + z));
    BlocksRead(HeaderBytes(VERSION, s.runMs, s.viStallMs, s.initial), |records|, TableBytes(records), blob, plans);
    PathRoundTrip(s.path);
  }
}
