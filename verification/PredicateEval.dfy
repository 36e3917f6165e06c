/** Evaluating packed predicate records against the emulated memory, and capturing their baselines. */
module PredicateEval {
  import opened Bytes
  import opened ActionTypes
  import opened AddrProgram
  import opened PredicatePacking

  /** The stopped emulator: its memory, its keyed reads, and the battle it shows, if any. */
  datatype Env = Env(machine: Machine, readKey: (u16, u8) -> Option<u64>, battle: Option<BattleContext>)

  /** A record is not evaluated when inactive, meant for another breakpoint, or unreadable. Strayed: reading one of
      its operands left the table. */
  datatype Verdict = Skipped | Judged(lhs: u64, rhs: u64, ok: bool) | Strayed

  predicate Enough(n: u32, table: seq<u8>, baselines: seq<u8>) {
    |table| >= n * RECORD_SIZE && |baselines| >= n * 8
  }

  function Of(v: Option<u64>): Operand {
    match v case None => Missing case Some(bits) => Got(bits)
  }

  function ByProgram(env: Env, table: seq<u8>, offset: u32, width: u8): Operand {
    ReadOperand(table, offset, width, env.machine)
  }

  /** Every keyed reader refuses other widths. */
  function ByKey(env: Env, key: u16, width: u8): Operand {
    if width in {1, 2, 4, 8} then Of(env.readKey(key, width)) else Missing
  }

  /** Key, else absolute address. */
  function Direct(env: Env, r: Record): Operand {
    if r.lhsAddrKey != 0 then ByKey(env, r.lhsAddrKey, r.width)
    else if r.width in {1, 2, 4, 8} then Of(env.machine.mem(r.lhsAddr, r.width))
    else Missing
  }

  function Lhs(env: Env, table: seq<u8>, r: Record): Operand {
    var p := if HasFlag(r.flags, LHS_IS_PROG) then ByProgram(env, table, r.lhsOffset, r.width) else Missing;
    if p.Missing? then Direct(env, r) else p
  }

  function Rhs(env: Env, table: seq<u8>, r: Record): Operand {
    var p := if HasFlag(r.flags, RHS_IS_PROG) then ByProgram(env, table, r.rhsOffset, r.width) else Missing;
    if !p.Missing? then p
    else if HasFlag(r.flags, RHS_IS_KEY) then ByKey(env, r.rhsAddrKey, r.width)
    else Got(r.rhsImm)
  }

  function Compare(cmp: u8, a: u64, b: u64): bool {
    if cmp == 0 then a == b
    else if cmp == 1 then a != b
    else if cmp == 2 then a < b
    else if cmp == 3 then a <= b
    else if cmp == 4 then a > b
    else cmp == 5 && a >= b
  }

  /** Record i at a hit; the turn mask plays no part. A delta compares with the captured baseline. */
  function Judge(env: Env, table: seq<u8>, baselines: seq<u8>, hit: u32, i: nat): Verdict
    requires (i + 1) * RECORD_SIZE <= |table| && (i + 1) * 8 <= |baselines|
  {
    var r := RecordAt(table, i);
    if !HasFlag(r.flags, ACTIVE) || (r.requiredBp != 0 && r.requiredBp != hit) then Skipped
    else
      match Lhs(env, table, r)
      case Missing => Skipped
      case Outside => Strayed
      case Got(lhs) =>
        match Rhs(env, table, r)
        case Missing => Skipped
        case Outside => Strayed
        case Got(value) =>
          var rhs := if r.kind == 1 then Get64(baselines, i * 8) else value;
          Judged(lhs, rhs, Compare(r.cmp, lhs, rhs))
  }

  function Verdicts(env: Env, n: u32, table: seq<u8>, baselines: seq<u8>, hit: u32): (v: seq<Verdict>)
    requires Enough(n, table, baselines)
    ensures |v| == n
  {
    seq(n, i requires 0 <= i < n => Judge(env, table, baselines, hit, i))
  }

  predicate Strays(v: seq<Verdict>) { exists i | 0 <= i < |v| :: v[i].Strayed? }

  predicate Fails(v: Verdict) { v.Judged? && !v.ok }

  /** The first failing verdict, or the length. */
  function FirstFailure(v: seq<Verdict>): (k: nat)
    ensures k <= |v| && (k < |v| ==> Fails(v[k])) && forall i | 0 <= i < k :: !Fails(v[i])
  {
    if v == [] || Fails(v[0]) then 0 else 1 + FirstFailure(v[1..])
  }

  predicate AllTrue(v: seq<Verdict>) { FirstFailure(v) == |v| }

  function JudgedCount(v: seq<Verdict>): nat {
    if v == [] then 0 else JudgedCount(v[..|v| - 1]) + if v[|v| - 1].Judged? then 1 else 0
  }

  function PassedCount(v: seq<Verdict>): nat {
    if v == [] then 0 else PassedCount(v[..|v| - 1]) + if v[|v| - 1].Judged? && v[|v| - 1].ok then 1 else 0
  }

  /** The failure the evaluation reports, when nothing had failed before it: its record's id. */
  datatype Tally = Tally(total: u32, passed: u32, allPassed: u32, firstFailed: Option<u16>)

  function TallyOf(v: seq<Verdict>, total: u32, allPassed: u32, table: seq<u8>): Tally
    requires |v| * RECORD_SIZE <= |table|
  {
    var k := FirstFailure(v);
    Tally(Wrap32(total + JudgedCount(v)), Wrap32(PassedCount(v)), if k < |v| then 0 else allPassed,
          if k < |v| && allPassed != 0 then Some(RecordAt(table, k).id) else None)
  }

  lemma {:induction false} FirstFailureSnoc(v: seq<Verdict>, x: Verdict)
    ensures FirstFailure(v + [x]) == if FirstFailure(v) < |v| then FirstFailure(v) else if Fails(x) then |v| else |v| + 1
  {
    if v != [] {
      assert (v + [x])[1..] == v[1..] + [x];
      FirstFailureSnoc(v[1..], x);
    }
  }

  lemma CountsSnoc(v: seq<Verdict>, x: Verdict)
    ensures JudgedCount(v + [x]) == JudgedCount(v) + if x.Judged? then 1 else 0
    ensures PassedCount(v + [x]) == PassedCount(v) + if x.Judged? && x.ok then 1 else 0
  {
    assert (v + [x])[..|v|] == v;
  }

  lemma WrapStep(x: nat)
    ensures Wrap32(Wrap32(x) + 1) == Wrap32(x + 1)
  {
  }

  /** One record. */
  method JudgeOne(env: Env, table: seq<u8>, baselines: seq<u8>, hit: u32, i: nat) returns (v: Verdict)
    requires (i + 1) * RECORD_SIZE <= |table| && (i + 1) * 8 <= |baselines|
    ensures v == Judge(env, table, baselines, hit, i)
  {
    hide RecordAt, ReadOperand, Get64;
    var r := RecordAt(table, i);
    if !HasFlag(r.flags, ACTIVE) { return Skipped; }
    if r.requiredBp != 0 && r.requiredBp != hit { return Skipped; }
    var lhs := Missing;
    if HasFlag(r.flags, LHS_IS_PROG) { lhs := ReadViaAddrProg(env.machine, table, r.lhsOffset, r.width); }
    if lhs.Outside? { return Strayed; }
    if lhs.Missing? {
      lhs := Direct(env, r);
      if lhs.Missing? { return Skipped; }
    }
    var rhs := Missing;
    if HasFlag(r.flags, RHS_IS_PROG) { rhs := ReadViaAddrProg(env.machine, table, r.rhsOffset, r.width); }
    if rhs.Outside? { return Strayed; }
    if rhs.Missing? {
      if HasFlag(r.flags, RHS_IS_KEY) {
        rhs := ByKey(env, r.rhsAddrKey, r.width);
        if rhs.Missing? { return Skipped; }
      } else {
        rhs := Got(r.rhsImm);
      }
    }
    var value := if r.kind == 1 then Get64(baselines, i * 8) else rhs.bits;
    return Judged(lhs.bits, value, Compare(r.cmp, lhs.bits, value));
  }

  /** The evaluation loop; None when it leaves the table. */
  method Evaluate(env: Env, n: u32, table: seq<u8>, baselines: seq<u8>, hit: u32, total0: u32, allPassed0: u32)
    returns (t: Option<Tally>)
    requires Enough(n, table, baselines)
    ensures var v := Verdicts(env, n, table, baselines, hit);
            t == if Strays(v) then None else Some(TallyOf(v, total0, allPassed0, table))
  {
    hide Judge, RecordAt, JudgedCount, PassedCount, FirstFailure, Wrap32;
    var total, passed, allPassed, first := total0, 0, allPassed0, None;
    ghost var all := Verdicts(env, n, table, baselines, hit);
    NoVerdicts(total0);
    for i := 0 to n
      invariant Tally(total, passed, allPassed, first) == TallyOf(all[..i], total0, allPassed0, table)
      invariant forall k | 0 <= k < i :: !all[k].Strayed?
    {
      var v := JudgeOne(env, table, baselines, hit, i);
      assert v == all[i];
      if v.Strayed? { return None; }
      assert all[..i + 1] == all[..i] + [v];
      FirstFailureSnoc(all[..i], v);
      FirstFailureOfPrefix(all[..i]);
      CountsSnoc(all[..i], v);
      WrapStep(total0 + JudgedCount(all[..i]));
      WrapStep(PassedCount(all[..i]));
      if v.Judged? {
        total := Wrap32(total as int + 1);
        if v.ok {
          passed := Wrap32(passed as int + 1);
        } else if allPassed != 0 {
          first := Some(RecordAt(table, i).id);
          allPassed := 0;
        }
      }
    }
    assert all[..n] == all;
    t := Some(Tally(total, passed, allPassed, first));
  }

  lemma NoVerdicts(total: u32)
    ensures JudgedCount([]) == 0 && PassedCount([]) == 0 && FirstFailure([]) == 0
    ensures Wrap32(total) == total && Wrap32(0) == 0
  {
  }

  lemma FirstFailureOfPrefix(v: seq<Verdict>)
    ensures FirstFailure(v) <= |v|
  {
  }

  // ---------------------------------------------------------------- what a verdict means

  /** The comparison codes as the records carry them: equal, different, below, at most, above, at least; no other code
      ever holds. */
  ghost predicate CodeHolds(code: int, lhs: int, rhs: int) {
    || (code == 0 && lhs == rhs) || (code == 1 && lhs != rhs) || (code == 2 && lhs < rhs) || (code == 3 && lhs <= rhs)
    || (code == 4 && rhs < lhs) || (code == 5 && rhs <= lhs)
  }

  /** A flag of a record, by the number of its bit. */
  predicate BitSet(flags: u8, bit: nat)
    requires bit < 5
  {
    (if bit == 0 then flags else if bit == 1 then flags / 2 else if bit == 2 then flags / 4 else if bit == 3 then flags / 8 else flags / 16) % 2 == 1
  }

  /** Where a left-hand side comes from: its program if that yields a value, else its key, else its address. */
  ghost predicate LeftIs(env: Env, table: seq<u8>, r: Record, lhs: u64) {
    || (BitSet(r.flags, 3) && ReadOperand(table, r.lhsOffset, r.width, env.machine) == Got(lhs))
    || ((BitSet(r.flags, 3) ==> ReadOperand(table, r.lhsOffset, r.width, env.machine) == Missing)
        && Some(lhs) == if r.lhsAddrKey != 0 then env.readKey(r.lhsAddrKey, r.width) else env.machine.mem(r.lhsAddr, r.width))
  }

  /** Where a right-hand side comes from: its program if that yields a value, else its key if it has one, else the
      immediate; a delta record then takes the captured word instead. */
  ghost predicate RightIs(env: Env, table: seq<u8>, baselines: seq<u8>, r: Record, i: nat, rhs: u64)
    requires (i + 1) * 8 <= |baselines|
  {
    exists value: u64 ::
      && RightReads(env, table, r, value)
      && rhs == if r.kind == 1 then Get64(baselines, i * 8) else value
  }

  ghost predicate RightReads(env: Env, table: seq<u8>, r: Record, value: u64) {
    || (BitSet(r.flags, 4) && ReadOperand(table, r.rhsOffset, r.width, env.machine) == Got(value))
    || ((BitSet(r.flags, 4) ==> ReadOperand(table, r.rhsOffset, r.width, env.machine) == Missing)
        && if BitSet(r.flags, 2) then env.readKey(r.rhsAddrKey, r.width) == Some(value) else value == r.rhsImm)
  }

  lemma FlagsAreBits(flags: u8)
    ensures HasFlag(flags, CAPTURE_BASELINE) <==> BitSet(flags, 0)
    ensures HasFlag(flags, ACTIVE) <==> BitSet(flags, 1)
    ensures HasFlag(flags, RHS_IS_KEY) <==> BitSet(flags, 2)
    ensures HasFlag(flags, LHS_IS_PROG) <==> BitSet(flags, 3)
    ensures HasFlag(flags, RHS_IS_PROG) <==> BitSet(flags, 4)
  {
  }

  /** Main result: a judged record is active and meant for this breakpoint or for any; its operands come from where its
      flags say; and it passes exactly when its comparison code holds of them. */
  lemma VerdictMeans(env: Env, table: seq<u8>, baselines: seq<u8>, hit: u32, i: nat)
    requires (i + 1) * RECORD_SIZE <= |table| && (i + 1) * 8 <= |baselines| && Judge(env, table, baselines, hit, i).Judged?
    ensures var r, v := RecordAt(table, i), Judge(env, table, baselines, hit, i);
            && BitSet(r.flags, 1) && (r.requiredBp == 0 || r.requiredBp == hit)
            && LeftIs(env, table, r, v.lhs) && RightIs(env, table, baselines, r, i, v.rhs)
            && (v.ok <==> CodeHolds(r.cmp, v.lhs, v.rhs))
  {
    var r := RecordAt(table, i);
    FlagsAreBits(r.flags);
    hide RecordAt, ReadOperand, Get64, HasFlag, BitSet;
    assert RightReads(env, table, r, Rhs(env, table, r).bits);
  }

  /** Main result: a record is skipped only when it is inactive, meant for another breakpoint, or unreadable. */
  lemma SkippedMeans(env: Env, table: seq<u8>, baselines: seq<u8>, hit: u32, i: nat)
    requires (i + 1) * RECORD_SIZE <= |table| && (i + 1) * 8 <= |baselines| && Judge(env, table, baselines, hit, i).Skipped?
    ensures var r := RecordAt(table, i);
            || !BitSet(r.flags, 1) || (r.requiredBp != 0 && r.requiredBp != hit)
            || r.width !in {1, 2, 4, 8} || (forall v: u64 :: !LeftIs(env, table, r, v)) || (forall v: u64 :: !RightReads(env, table, r, v))
  {
    var r := RecordAt(table, i);
    FlagsAreBits(r.flags);
    hide RecordAt, ReadOperand, Get64, HasFlag, BitSet;
  }

  /** Main result: the tallies count the judged records and those that passed, and the latch falls with the first that
      failed, whose id is reported. */
  lemma TallyMeans(v: seq<Verdict>, total: u32, allPassed: u32, table: seq<u8>)
    requires |v| * RECORD_SIZE <= |table|
    ensures var t := TallyOf(v, total, allPassed, table);
            && t.total == (total + |JudgedAt(v)|) % 0x1_0000_0000
            && t.passed == |PassedAt(v)| % 0x1_0000_0000
            && (if exists k :: 0 <= k < |v| && v[k].Judged? && !v[k].ok then t.allPassed == 0 else t.allPassed == allPassed && t.firstFailed == None)
            && (forall k: nat | k < |v| && v[k].Judged? && !v[k].ok && allPassed != 0 && (forall j | 0 <= j < k :: v[j].Judged? ==> v[j].ok) ::
                  t.firstFailed == Some(RecordAt(table, k).id))
  {
    hide RecordAt;
    CountsMean(v);
    var first := FirstFailure(v);
    assert first < |v| ==> Fails(v[first]);
  }

  function JudgedAt(v: seq<Verdict>): set<nat> { set k | 0 <= k < |v| && v[k].Judged? }

  function PassedAt(v: seq<Verdict>): set<nat> { set k | 0 <= k < |v| && v[k].Judged? && v[k].ok }

  lemma {:induction false} CountsMean(v: seq<Verdict>)
    ensures JudgedCount(v) == |JudgedAt(v)| && PassedCount(v) == |PassedAt(v)|
  {
    if v != [] {
      CountsMean(v[..|v| - 1]);
      OneMore(v);
      hide JudgedAt, PassedAt;
    }
  }

  lemma OneMore(v: seq<Verdict>)
    requires v != []
    ensures var last, front := |v| - 1, v[..|v| - 1];
            && last !in JudgedAt(front) && JudgedAt(v) == (if v[last].Judged? then JudgedAt(front) + {last} else JudgedAt(front))
            && last !in PassedAt(front) && PassedAt(v) == (if v[last].Judged? && v[last].ok then PassedAt(front) + {last} else PassedAt(front))
  {
  }

  // ---------------------------------------------------------------- baselines

  /** The value captured for record i, if it captures one: a program is tried whenever it has an offset. */
  function Captured(env: Env, table: seq<u8>, i: nat): Operand
    requires (i + 1) * RECORD_SIZE <= |table|
  {
    var r := RecordAt(table, i);
    if !HasFlag(r.flags, CAPTURE_BASELINE) || !HasFlag(r.flags, ACTIVE) then Missing
    else
      var p := ByProgram(env, table, r.lhsOffset, r.width);
      if p.Missing? then Direct(env, r) else p
  }

  /** Main result: a record's word is captured only from an active record that asks for it: through its program if it has
      one that yields a value, else by its key, else from its address. */
  lemma CapturedMeans(env: Env, table: seq<u8>, i: nat, v: u64)
    requires (i + 1) * RECORD_SIZE <= |table| && Captured(env, table, i) == Got(v)
    ensures var r := RecordAt(table, i);
            && BitSet(r.flags, 0) && BitSet(r.flags, 1)
            && (ReadOperand(table, r.lhsOffset, r.width, env.machine) == Got(v) ||
                (ReadOperand(table, r.lhsOffset, r.width, env.machine) == Missing
                 && Some(v) == if r.lhsAddrKey != 0 then env.readKey(r.lhsAddrKey, r.width) else env.machine.mem(r.lhsAddr, r.width)))
  {
    var r := RecordAt(table, i);
    FlagsAreBits(r.flags);
    hide RecordAt, ReadOperand, HasFlag, BitSet;
  }

  function PutWord(b: seq<u8>, i: nat, v: u64): (r: seq<u8>)
    requires (i + 1) * 8 <= |b|
    ensures |r| == |b|
  {
    b[..i * 8] + Le64(v) + b[(i + 1) * 8..]
  }

  predicate CaptureStrays(env: Env, n: nat, table: seq<u8>)
    requires n * RECORD_SIZE <= |table|
  {
    exists i | 0 <= i < n :: Captured(env, table, i).Outside?
  }

  /** The baselines after capturing the first n records' words. */
  function CaptureAll(env: Env, n: nat, table: seq<u8>, before: seq<u8>): (after: seq<u8>)
    requires n * RECORD_SIZE <= |table| && n * 8 <= |before|
    ensures |after| == |before|
  {
    if n == 0 then before
    else
      var front := CaptureAll(env, n - 1, table, before);
      match Captured(env, table, n - 1) case Got(v) => PutWord(front, n - 1, v) case _ => front
  }

  /** What capturing means: exactly the captured records' words are new. */
  ghost predicate IsCapture(env: Env, n: nat, table: seq<u8>, before: seq<u8>, after: seq<u8>)
    requires n * RECORD_SIZE <= |table| && n * 8 <= |before|
  {
    && |after| == |before| && after[n * 8..] == before[n * 8..]
    && forall i | 0 <= i < n :: Get64(after, i * 8) ==
         match Captured(env, table, i) case Got(v) => v case _ => Get64(before, i * 8)
  }

  lemma Get64Slice(a: seq<u8>, b: seq<u8>, p: nat)
    requires p + 8 <= |a| && p + 8 <= |b| && a[p..p + 8] == b[p..p + 8]
    ensures Get64(a, p) == Get64(b, p)
  {
    assert a[p..p + 4] == a[p..p + 8][..4] && b[p..p + 4] == b[p..p + 8][..4];
    assert a[p + 4..p + 8] == a[p..p + 8][4..] && b[p + 4..p + 8] == b[p..p + 8][4..];
    Get32Local(a, p, b, p);
    Get32Local(a, p + 4, b, p + 4);
  }

  lemma PutWordReads(b: seq<u8>, i: nat, v: u64, k: nat)
    requires (i + 1) * 8 <= |b| && (k + 1) * 8 <= |b|
    ensures Get64(PutWord(b, i, v), k * 8) == if k == i then v else Get64(b, k * 8)
  {
    hide Get64;
    var r := PutWord(b, i, v);
    if k == i {
      assert r == b[..i * 8] + Le64(v) + b[(i + 1) * 8..];
      Get64Le64(b[..i * 8], v, b[(i + 1) * 8..]);
    } else {
      assert r[k * 8..k * 8 + 8] == b[k * 8..k * 8 + 8];
      Get64Slice(r, b, k * 8);
    }
  }

  /** The capture loop; None when it leaves the table. */
  method Capture(env: Env, n: u32, table: seq<u8>, baselines: seq<u8>) returns (after: Option<seq<u8>>)
    requires Enough(n, table, baselines)
    ensures after == if CaptureStrays(env, n, table) then None else Some(CaptureAll(env, n, table, baselines))
  {
    hide RecordAt, ReadOperand, PutWord, Captured;
    var words := baselines;
    for i := 0 to n
      invariant words == CaptureAll(env, i, table, baselines)
      invariant forall k | 0 <= k < i :: !Captured(env, table, k).Outside?
    {
      var v := CaptureOne(env, table, i);
      if v.Outside? { return None; }
      if v.Got? { words := PutWord(words, i, v.bits); }
    }
    return Some(words);
  }

  method CaptureOne(env: Env, table: seq<u8>, i: nat) returns (v: Operand)
    requires (i + 1) * RECORD_SIZE <= |table|
    ensures v == Captured(env, table, i)
  {
    hide RecordAt, ReadAt;
    var r := RecordAt(table, i);
    if !HasFlag(r.flags, CAPTURE_BASELINE) { return Missing; }
    if !HasFlag(r.flags, ACTIVE) { return Missing; }
    if r.lhsOffset != 0 { v := ReadViaAddrProg(env.machine, table, r.lhsOffset, r.width); } else { v := Missing; }
    if v.Missing? { v := Direct(env, r); }
  }

  /** Main result: capturing overwrites exactly the captured records' words. */
  lemma {:induction false} CaptureMeans(env: Env, n: nat, table: seq<u8>, before: seq<u8>)
    requires n * RECORD_SIZE <= |table| && n * 8 <= |before|
    ensures IsCapture(env, n, table, before, CaptureAll(env, n, table, before))
  {
    hide Captured, Get64, PutWord;
    if n > 0 {
      CaptureMeans(env, n - 1, table, before);
      CaptureStep(env, n - 1, table, before, CaptureAll(env, n - 1, table, before), CaptureAll(env, n, table, before), Captured(env, table, n - 1));
    }
  }

  lemma CaptureStep(env: Env, i: nat, table: seq<u8>, start: seq<u8>, before: seq<u8>, after: seq<u8>, v: Operand)
    requires (i + 1) * RECORD_SIZE <= |table| && (i + 1) * 8 <= |start| && IsCapture(env, i, table, start, before)
    requires v == Captured(env, table, i) && after == if v.Got? then PutWord(before, i, v.bits) else before
    ensures IsCapture(env, i + 1, table, start, after)
  {
    assert before[i * 8..][8..] == before[(i + 1) * 8..] && start[i * 8..][8..] == start[(i + 1) * 8..];
    assert before[i * 8..i * 8 + 8] == before[i * 8..][..8] && start[i * 8..i * 8 + 8] == start[i * 8..][..8];
    Get64Slice(before, start, i * 8);
    hide Get64, Captured;
    if v.Got? {
      assert after[(i + 1) * 8..] == before[(i + 1) * 8..];
      forall k | 0 <= k <= i ensures Get64(after, k * 8) == if k == i then v.bits else Get64(before, k * 8) {
        PutWordReads(before, i, v.bits, k);
      }
    }
  }

  /** Main result: a delta record judged after its word was captured compares with the value it had then; code 2 passes
      exactly when the value fell, code 4 exactly when it grew. */
  lemma DeltaComparesWithCapture(earlier: Env, env: Env, n: nat, table: seq<u8>, before: seq<u8>, hit: u32, i: nat, was: u64)
    requires n * RECORD_SIZE <= |table| && n * 8 <= |before| && i < n && RecordAt(table, i).kind == 1
    requires Captured(earlier, table, i) == Got(was)
    ensures var v := Judge(env, table, CaptureAll(earlier, n, table, before), hit, i);
            v.Judged? ==>
              && v.rhs == was
              && (RecordAt(table, i).cmp == 2 ==> (v.ok <==> v.lhs < was)) && (RecordAt(table, i).cmp == 4 ==> (v.ok <==> was < v.lhs))
  {
    CaptureMeans(earlier, n, table, before);
    var words := CaptureAll(earlier, n, table, before);
    hide RecordAt, Captured, CaptureAll, Get64;
    if Judge(env, table, words, hit, i).Judged? { VerdictMeans(env, table, words, hit, i); }
    hide Judge, LeftIs, RightReads;
  }

  // ---------------------------------------------------------------- reads that leave the table

  /** Whether evaluating a record can leave the table: the right-hand program is only read when the left-hand side
      can be. */
  predicate Shelters(r: Record) {
    HasFlag(r.flags, ACTIVE) ==>
      && (HasFlag(r.flags, LHS_IS_PROG) ==> r.lhsOffset < WRAP_START)
      && (HasFlag(r.flags, RHS_IS_PROG) && r.width in {1, 2, 4, 8} ==> r.rhsOffset < WRAP_START)
  }

  /** Whether capturing it can: there the offset alone decides. */
  predicate SheltersCapture(r: Record) {
    HasFlag(r.flags, ACTIVE) && HasFlag(r.flags, CAPTURE_BASELINE) ==> r.lhsOffset < WRAP_START
  }

  /** A condition on the table alone. */
  predicate Sheltered(n: nat, table: seq<u8>)
    requires n * RECORD_SIZE <= |table|
  {
    forall i | 0 <= i < n :: Shelters(RecordAt(table, i)) && SheltersCapture(RecordAt(table, i))
  }

  /** No width that is refused yields a left-hand side. */
  lemma NarrowLhs(env: Env, table: seq<u8>, r: Record)
    requires r.width !in {1, 2, 4, 8}
    ensures !Lhs(env, table, r).Got?
  {
    hide Exec;
  }

  lemma JudgeStays(env: Env, table: seq<u8>, baselines: seq<u8>, hit: u32, i: nat)
    requires (i + 1) * RECORD_SIZE <= |table| <= WRAP_START && (i + 1) * 8 <= |baselines| && Shelters(RecordAt(table, i))
    ensures !Judge(env, table, baselines, hit, i).Strayed?
  {
    var r := RecordAt(table, i);
    OutsideExactlyWhen(table, r.lhsOffset, r.width, env.machine);
    OutsideExactlyWhen(table, r.rhsOffset, r.width, env.machine);
    if r.width !in {1, 2, 4, 8} { NarrowLhs(env, table, r); }
    hide ReadOperand, RecordAt, Get64;
  }

  lemma CaptureStays(env: Env, table: seq<u8>, i: nat)
    requires (i + 1) * RECORD_SIZE <= |table| <= WRAP_START && SheltersCapture(RecordAt(table, i))
    ensures !Captured(env, table, i).Outside?
  {
    var r := RecordAt(table, i);
    OutsideExactlyWhen(table, r.lhsOffset, r.width, env.machine);
    hide ReadOperand, RecordAt;
  }

  /** No evaluation of a sheltered table leaves it, and no capture. */
  lemma ShelteredStays(env: Env, n: u32, table: seq<u8>, baselines: seq<u8>, hit: u32)
    requires Enough(n, table, baselines) && |table| <= WRAP_START && Sheltered(n, table)
    ensures !Strays(Verdicts(env, n, table, baselines, hit)) && !CaptureStrays(env, n, table)
  {
    hide Judge, Captured, RecordAt, Shelters, SheltersCapture;
    forall i | 0 <= i < n ensures !Judge(env, table, baselines, hit, i).Strayed? && !Captured(env, table, i).Outside? {
      JudgeStays(env, table, baselines, hit, i);
      CaptureStays(env, table, i);
    }
  }

  /** A game that reads 0 everywhere. */
  ghost const ZEROS: Env := Env(Machine(k => 0, k => Mem1, (va, w) => Some(0), None), (k, w) => Some(0), None)

  /** At a record's own breakpoint, on a game that can be read, an operand that can leave the table does. */
  lemma UnshelteredStrays(table: seq<u8>, baselines: seq<u8>, hit: u32, i: nat)
    requires (i + 1) * RECORD_SIZE <= |table| <= WRAP_START && (i + 1) * 8 <= |baselines| && !Shelters(RecordAt(table, i))
    requires RecordAt(table, i).requiredBp in {0, hit}
    ensures Judge(ZEROS, table, baselines, hit, i).Strayed?
  {
    var r := RecordAt(table, i);
    OutsideExactlyWhen(table, r.lhsOffset, r.width, ZEROS.machine);
    OutsideExactlyWhen(table, r.rhsOffset, r.width, ZEROS.machine);
    hide ReadOperand, RecordAt, Get64;
  }
}
