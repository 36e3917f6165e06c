/** Address programs: the byte-code assembler, the interpreter, and what a program means. */
module AddrProgram {
  import opened Bytes

  datatype Region = Mem1 | Mem2 | Derived

  /** What the interpreter can see: the address registry, the emulated memory (a read of a width
      may fail), and the derived buffer, which need not exist. */
  datatype Machine = Machine(
    base: u16 -> u32,
    region: u16 -> Region,
    mem: (u32, u8) -> Option<u64>,
    derived: Option<(u32, u8) -> Option<u64>>)

  datatype Op =
    | End
    | BaseKey(key: u16)
    | LoadPtr32
    | AddI32(imm: i32)
    | Index(count: u16, stride: u16)
    | FieldOff(off: u32)

  // ---------------------------------------------------------------- meaning

  /** The working address, and the region it lies in once a base key has been seen. */
  datatype Cpu = Cpu(va: u32, region: Option<Region>)

  const RESET := Cpu(0, None)

  function LoadPointer(m: Machine, region: Option<Region>, va: u32): Option<u32> {
    match region
    case None => None
    case Some(Derived) =>
      if m.derived.None? then None
      else (match (m.derived.value)(va, 4) case None => None case Some(v) => Some(Wrap32(v)))
    case Some(_) => (match m.mem(va, 4) case None => None case Some(v) => Some(Wrap32(v)))
  }

  /** One instruction other than End; None when a pointer load fails. */
  function Apply(op: Op, c: Cpu, m: Machine): Option<Cpu>
    requires !op.End?
  {
    match op
    case BaseKey(k) => Some(Cpu(m.base(k), Some(m.region(k))))
    case LoadPtr32 =>
      (match LoadPointer(m, c.region, c.va) case None => None case Some(v) => Some(c.(va := v)))
    case AddI32(imm) => Some(c.(va := Wrap32(c.va + imm)))
    case Index(n, s) => Some(c.(va := Wrap32(c.va + n as int * s as int)))
    case FieldOff(off) => Some(c.(va := Wrap32(c.va + off)))
  }

  /** The reference meaning: fold the instructions up to the first End. */
  function Fold(ops: seq<Op>, c: Cpu, m: Machine): Option<u32> {
    if ops == [] then None
    else if ops[0].End? then Some(c.va)
    else match Apply(ops[0], c, m)
         case None => None
         case Some(c') => Fold(ops[1..], c', m)
  }

  // ---------------------------------------------------------------- byte code

  /** Two's complement, as the cast from int32_t to uint32_t does it. */
  function Unsigned(imm: i32): u32 { Wrap32(imm) }

  function Emit(op: Op): seq<u8> {
    match op
    case End => [0]
    case BaseKey(k) => [1] + Le16(k)
    case LoadPtr32 => [2]
    case AddI32(imm) => [3] + Le32(Unsigned(imm))
    case Index(n, s) => [4] + Le16(n) + Le16(s)
    case FieldOff(off) => [5] + Le32(off)
  }

  function Assemble(ops: seq<Op>): seq<u8> {
    if ops == [] then [] else Emit(ops[0]) + Assemble(ops[1..])
  }

  datatype Status = Halt(result: Option<u32>) | Running(p: nat, cpu: Cpu)

  /** The effect of the instruction whose bytes start at p. */
  function Step(b: seq<u8>, p: nat, c: Cpu, m: Machine): (s: Status)
    ensures s.Running? ==> p < s.p <= |b|
  {
    if p >= |b| then Halt(None)
    else if b[p] == 0 then Halt(Some(c.va))
    else if b[p] == 1 then
      if p + 3 > |b| then Halt(None) else Continue(p + 3, Apply(BaseKey(Get16(b, p + 1)), c, m))
    else if b[p] == 2 then Continue(p + 1, Apply(LoadPtr32, c, m))
    else if p + 5 > |b| then Halt(None)
    else if b[p] == 3 || b[p] == 5 then Continue(p + 5, Apply(FieldOff(Get32(b, p + 1)), c, m))
    else if b[p] == 4 then Continue(p + 5, Apply(Index(Get16(b, p + 1), Get16(b, p + 3)), c, m))
    else Halt(None)
  }

  function Continue(p: nat, r: Option<Cpu>): Status {
    match r case None => Halt(None) case Some(c) => Running(p, c)
  }

  /** What the interpreter does with the bytes at p; None is its "not ok" result. */
  function Exec(b: seq<u8>, p: nat, c: Cpu, m: Machine): Option<u32>
    decreases |b| - p
  {
    match Step(b, p, c, m)
    case Halt(r) => r
    case Running(p', c') => Exec(b, p', c', m)
  }

  // ---------------------------------------------------------------- the interpreter loop

  method ReadPointer(m: Machine, region: Region, va: u32) returns (ok: bool, target: u32)
    ensures LoadPointer(m, Some(region), va) == if ok then Some(target) else None
  {
    match region
    case Derived =>
      if m.derived.None? { return false, 0; }
      var bits := (m.derived.value)(va, 4);
      if bits.None? { return false, 0; }
      return true, Wrap32(bits.value);
    case _ =>
      var r := m.mem(va, 4);
      if r.None? { return false, 0; }
      return true, Wrap32(r.value);
  }

  method Execute(b: seq<u8>, offset: nat, m: Machine) returns (ok: bool, out: u32)
    ensures ok == Exec(b, offset, RESET, m).Some?
    ensures ok ==> out == Exec(b, offset, RESET, m).value
  {
    var p := offset;
    var va: u32 := 0;
    var region := Mem1;
    var haveRegion := false;
    out := 0;
    while true
      invariant Exec(b, offset, RESET, m) == Exec(b, p, Cpu(va, if haveRegion then Some(region) else None), m)
      decreases |b| - p
    {
      if p >= |b| { return false, 0; }
      var op := b[p];
      p := p + 1;
      match op
      case 0 => return true, va;
      case 1 =>
        if p + 2 > |b| { return false, 0; }
        var k := Get16(b, p);
        p := p + 2;
        va, region, haveRegion := m.base(k), m.region(k), true;
      case 2 =>
        if !haveRegion { return false, 0; }
        var loaded, target := ReadPointer(m, region, va);
        if !loaded { return false, 0; }
        va := target;
      case 3 =>
        if p + 4 > |b| { return false, 0; }
        va := Wrap32(va + Get32(b, p));
        p := p + 4;
      case 4 =>
        if p + 4 > |b| { return false, 0; }
        var n, s := Get16(b, p), Get16(b, p + 2);
        va := Wrap32(va + n as int * s as int);
        p := p + 4;
      case 5 =>
        if p + 4 > |b| { return false, 0; }
        va := Wrap32(va + Get32(b, p));
        p := p + 4;
      case _ => return false, 0;
    }
  }

  // ---------------------------------------------------------------- assembling, then running

  /** Adding the two's complement image of a signed immediate is adding the immediate, modulo 2^32. */
  lemma AddUnsigned(va: u32, imm: i32)
    ensures Wrap32(va + Unsigned(imm)) == Wrap32(va + imm)
  {
  }

  /** One emitted instruction, anywhere in a buffer, is executed as that instruction. */
  lemma ExecEmit(pre: seq<u8>, op: Op, post: seq<u8>, c: Cpu, m: Machine)
    ensures var b := pre + Emit(op) + post;
            Step(b, |pre|, c, m) ==
            if op.End? then Halt(Some(c.va)) else Continue(|pre| + |Emit(op)|, Apply(op, c, m))
  {
    var b := pre + Emit(op) + post;
    assert b[|pre|] == Emit(op)[0];
    match op
    case End =>
    case LoadPtr32 =>
    case BaseKey(k) =>
      assert b == (pre + [1]) + Le16(k) + post;
      Get16Le16(pre + [1], k, post);
    case AddI32(imm) =>
      assert b == (pre + [3]) + Le32(Unsigned(imm)) + post;
      Get32Le32(pre + [3], Unsigned(imm), post);
      AddUnsigned(c.va, imm);
    case Index(n, s) =>
      assert b == (pre + [4]) + Le16(n) + (Le16(s) + post);
      assert b == (pre + [4] + Le16(n)) + Le16(s) + post;
      Get16Le16(pre + [4], n, Le16(s) + post);
      Get16Le16(pre + [4] + Le16(n), s, post);
    case FieldOff(off) =>
      assert b == (pre + [5]) + Le32(off) + post;
      Get32Le32(pre + [5], off, post);
  }

  lemma ExecCons(pre: seq<u8>, op: Op, mid: seq<u8>, post: seq<u8>, c: Cpu, m: Machine)
    ensures Exec(pre + (Emit(op) + mid) + post, |pre|, c, m) ==
            if op.End? then Some(c.va)
            else match Apply(op, c, m)
                 case None => None
                 case Some(c') => Exec((pre + Emit(op)) + mid + post, |pre + Emit(op)|, c', m)
  {
    ExecEmit(pre, op, mid + post, c, m);
    assert pre + (Emit(op) + mid) + post == pre + Emit(op) + (mid + post) == (pre + Emit(op)) + mid + post;
  }

  /** Main result: an assembled program that is closed by End, or by the end of the buffer, runs
      exactly as its instructions fold, wherever it is placed and whatever stands around it. */
  lemma {:induction false} AssembledRunsAsFold(pre: seq<u8>, ops: seq<Op>, post: seq<u8>, c: Cpu, m: Machine)
    requires End in ops || post == []
    ensures Exec(pre + Assemble(ops) + post, |pre|, c, m) == Fold(ops, c, m)
    decreases |ops|
  {
    if ops == [] {
    } else {
      ExecCons(pre, ops[0], Assemble(ops[1..]), post, c, m);
      if !ops[0].End? {
        var r := Apply(ops[0], c, m);
        if r.Some? {
          AssembledRunsAsFold(pre + Emit(ops[0]), ops[1..], post, r.value, m);
        }
      }
    }
  }

  // ---------------------------------------------------------------- the address in closed form

  /** What an instruction adds to the address. */
  function Offset(op: Op): int {
    match op
    case AddI32(imm) => imm
    case Index(count, stride) => count as int * stride as int
    case FieldOff(off) => off
    case _ => 0
  }

  /** The 32-bit pointer stored at an address of the region. */
  function PointerAt(m: Machine, region: Region, va: u32): Option<int> {
    var word := if region != Derived then m.mem(va, 4) else if m.derived.None? then None else (m.derived.value)(va, 4);
    match word case None => None case Some(bits) => Some(bits % 4294967296)
  }

  /** Where the first n instructions behind a base key lead: sums of plain integers, taken modulo 2^32 only where a
      pointer is read. */
  function Reach(key: u16, ops: seq<Op>, n: nat, m: Machine): Option<int>
    requires n <= |ops|
  {
    if n == 0 then Some(m.base(key))
    else
      match Reach(key, ops, n - 1, m)
      case None => None
      case Some(x) => if ops[n - 1].LoadPtr32? then PointerAt(m, m.region(key), x % 4294967296) else Some(x + Offset(ops[n - 1]))
  }

  /** Neither a second base key nor an end. */
  predicate Moves(ops: seq<Op>) { forall op | op in ops :: !op.End? && !op.BaseKey? }

  lemma WrapSum(x: int, y: int)
    ensures Wrap32(Wrap32(x) + y) == Wrap32(x + y)
  {
  }

  lemma MoveReaches(op: Op, x: int, region: Region, m: Machine)
    requires !op.End? && !op.BaseKey?
    ensures Apply(op, Cpu(Wrap32(x), Some(region)), m) ==
            if !op.LoadPtr32? then Some(Cpu(Wrap32(x + Offset(op)), Some(region)))
            else match PointerAt(m, region, x % 4294967296) case None => None case Some(y) => Some(Cpu(Wrap32(y), Some(region)))
  {
    WrapSum(x, Offset(op));
  }

  lemma {:induction false} FoldReaches(key: u16, ops: seq<Op>, n: nat, m: Machine)
    requires n <= |ops| && Moves(ops)
    ensures Fold(ops + [End], Cpu(m.base(key), Some(m.region(key))), m) ==
            match Reach(key, ops, n, m)
            case None => None
            case Some(x) => Fold(ops[n..] + [End], Cpu(Wrap32(x), Some(m.region(key))), m)
  {
    if n == 0 {
      assert ops[0..] == ops && Wrap32(m.base(key)) == m.base(key);
    } else {
      FoldReaches(key, ops, n - 1, m);
      var x := Reach(key, ops, n - 1, m);
      if x.Some? {
        var rest := ops[n - 1..] + [End];
        assert rest[0] == ops[n - 1] && rest[1..] == ops[n..] + [End] && ops[n - 1] in ops;
        hide Apply;
        MoveReaches(ops[n - 1], x.value, m.region(key), m);
      }
    }
  }

  /** Main result: a program of one base key and any moves gives the base plus all offsets, indices times strides, from
      the last pointer on, modulo 2^32; and fails exactly when a pointer on the way cannot be read. */
  lemma AddressInClosedForm(key: u16, ops: seq<Op>, m: Machine)
    requires Moves(ops)
    ensures Fold([BaseKey(key)] + ops + [End], RESET, m) ==
            match Reach(key, ops, |ops|, m) case None => None case Some(x) => Some(x % 4294967296)
  {
    var all := [BaseKey(key)] + ops + [End];
    assert all[0] == BaseKey(key) && all[1..] == ops + [End];
    FoldReaches(key, ops, |ops|, m);
    assert ops[|ops|..] + [End] == [End];
  }

  /** Main result: the bytes of every instruction. */
  lemma InstructionBytes(op: Op)
    ensures match op
            case End => Emit(op) == [0]
            case BaseKey(k) => |Emit(op)| == 3 && Emit(op)[0] == 1 && k == Emit(op)[1] as int + 256 * Emit(op)[2] as int
            case LoadPtr32 => Emit(op) == [2]
            case AddI32(imm) => |Emit(op)| == 5 && Emit(op)[0] == 3 && Spells(Emit(op), 1, if imm < 0 then imm + 4294967296 else imm)
            case Index(count, stride) =>
              |Emit(op)| == 5 && Emit(op)[0] == 4
              && count == Emit(op)[1] as int + 256 * Emit(op)[2] as int && stride == Emit(op)[3] as int + 256 * Emit(op)[4] as int
            case FieldOff(off) => |Emit(op)| == 5 && Emit(op)[0] == 5 && Spells(Emit(op), 1, off)
  {
  }

  lemma StepRelocates(pre: seq<u8>, prog: seq<u8>, post: seq<u8>, p: nat, c: Cpu, m: Machine)
    requires Step(prog, p, c, m) != Halt(None)
    ensures var s := Step(pre + prog + post, |pre| + p, c, m);
            s == match Step(prog, p, c, m) case Halt(r) => Halt(r) case Running(q, c') => Running(|pre| + q, c')
  {
    var b := pre + prog + post;
    assert forall i | 0 <= i < |prog| :: b[|pre| + i] == prog[i];
    if p + 3 <= |prog| {
      assert b[|pre| + p + 1] == prog[p + 1] && b[|pre| + p + 2] == prog[p + 2];
    }
    if p + 5 <= |prog| {
      assert b[|pre| + p + 3] == prog[p + 3] && b[|pre| + p + 4] == prog[p + 4];
    }
  }

  /** A run that succeeds reads only its own program: the same bytes anywhere else give the same address. */
  lemma {:induction false} ExecRelocates(pre: seq<u8>, prog: seq<u8>, post: seq<u8>, p: nat, c: Cpu, m: Machine)
    requires Exec(prog, p, c, m).Some?
    ensures Exec(pre + prog + post, |pre| + p, c, m) == Exec(prog, p, c, m)
    decreases |prog| - p
  {
    StepRelocates(pre, prog, post, p, c, m);
    var s := Step(prog, p, c, m);
    if s.Running? {
      ExecRelocates(pre, prog, post, s.p, s.cpu, m);
    }
  }

  lemma {:induction false} AssembleAppend(a: seq<Op>, b: seq<Op>)
    ensures Assemble(a + b) == Assemble(a) + Assemble(b)
  {
    if a == [] {
      assert a + b == b;
    } else {
      assert (a + b)[1..] == a[1..] + b;
      AssembleAppend(a[1..], b);
    }
  }

  // ---------------------------------------------------------------- the assembler

  class Builder {
    var blob: seq<u8>
    ghost var program: seq<Op>

    ghost predicate Valid() reads this { blob == Assemble(program) }

    constructor ()
      ensures Valid() && program == []
    {
      blob, program := [], [];
    }

    ghost method Emitted(op: Op)
      requires Valid()
      modifies this`program
      ensures program == old(program) + [op]
      ensures Assemble(program) == blob + Emit(op)
    {
      AssembleAppend(program, [op]);
      assert Assemble([op]) == Emit(op) + Assemble([]);
      program := program + [op];
    }

    method OpBaseKey(k: u16)
      requires Valid()
      modifies this
      ensures Valid() && program == old(program) + [BaseKey(k)]
    {
      Emitted(BaseKey(k));
      blob := blob + [1];
      blob := blob + [k % 256] + [k / 256];
    }

    method OpAddI32(imm: i32)
      requires Valid()
      modifies this
      ensures Valid() && program == old(program) + [AddI32(imm)]
    {
      Emitted(AddI32(imm));
      blob := blob + [3];
      EmitU32(Unsigned(imm));
    }

    method OpIndex(count: u16, stride: u16)
      requires Valid()
      modifies this
      ensures Valid() && program == old(program) + [Index(count, stride)]
    {
      Emitted(Index(count, stride));
      blob := blob + [4];
      blob := blob + [count % 256] + [count / 256];
      blob := blob + [stride % 256] + [stride / 256];
    }

    method OpField(off: u32)
      requires Valid()
      modifies this
      ensures Valid() && program == old(program) + [FieldOff(off)]
    {
      Emitted(FieldOff(off));
      blob := blob + [5];
      EmitU32(off);
    }

    method OpLoadPtr32()
      requires Valid()
      modifies this
      ensures Valid() && program == old(program) + [LoadPtr32]
    {
      Emitted(LoadPtr32);
      blob := blob + [2];
    }

    method FinalizeProgram() returns (offset: u32)
      requires Valid()
      modifies this
      ensures Valid() && program == old(program) + [End] && offset == 0
    {
      Emitted(End);
      blob := blob + [0];
      offset := 0;
    }

    method EmitU32(v: u32)
      modifies this`blob
      ensures blob == old(blob) + Le32(v)
    {
      blob := blob + [v % 256];
      blob := blob + [v / 256 % 256];
      blob := blob + [v / 256 / 256 % 256];
      blob := blob + [v / 256 / 256 / 256];
    }

    /** Whatever was emitted, running the builder's bytes folds the emitted instructions. */
    lemma BuiltProgramMeaning(m: Machine)
      requires Valid()
      ensures Exec(blob, 0, RESET, m) == Fold(program, RESET, m)
    {
      AssembledRunsAsFold([], program, [], RESET, m);
      assert [] + Assemble(program) + [] == blob;
    }
  }
}
