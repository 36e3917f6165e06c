/** Predicate tables: fixed-size records followed by one blob that holds every distinct address program once. */
module PredicatePacking {
  import opened Bytes
  import opened Sequences
  import opened AddrProgram

  const CAPTURE_BASELINE: u8 := 1
  const ACTIVE: u8 := 2
  const RHS_IS_KEY: u8 := 4
  const LHS_IS_PROG: u8 := 8
  const RHS_IS_PROG: u8 := 16

  const RECORD_SIZE: nat := 36

  predicate HasFlag(flags: u8, bit: u8)
    requires bit > 0
  {
    flags / bit % 2 == 1
  }

  function WithFlag(flags: u8, bit: u8): u8
    requires bit in {1, 2, 4, 8, 16}
  {
    if HasFlag(flags, bit) then flags else flags + bit
  }

  datatype Spec = Spec(
    id: u16, requiredBp: u16, kind: u8, width: u8, cmp: u8, flags: u8,
    lhsAddr: u32, lhsKey: Option<u16>,
    rhsValue: u64, rhsKey: Option<u16>,
    turnMask: u32,
    lhsProg: seq<u8>, rhsProg: seq<u8>)
  {
    predicate UsesLhsProg() { lhsProg != [] && HasFlag(flags, LHS_IS_PROG) }
    predicate UsesRhsProg() { rhsProg != [] && HasFlag(flags, RHS_IS_PROG) }
  }

  datatype Record = Record(
    id: u16, requiredBp: u16, kind: u8, width: u8, cmp: u8, flags: u8, turnMask: u32,
    lhsAddr: u32, lhsAddrKey: u16, lhsOffset: u32,
    rhsImm: u64, rhsAddrKey: u16, rhsOffset: u32)

  // ---------------------------------------------------------------- interning

  function Concat(progs: seq<seq<u8>>): seq<u8> {
    if progs == [] then [] else progs[0] + Concat(progs[1..])
  }

  /** Where the first copy of s starts in Concat(progs). */
  function OffsetOf(progs: seq<seq<u8>>, s: seq<u8>): nat
    requires s in progs
  {
    if progs[0] == s then 0 else |progs[0]| + OffsetOf(progs[1..], s)
  }

  function Interned(progs: seq<seq<u8>>, s: seq<u8>): seq<seq<u8>> {
    if s == [] || s in progs then progs else progs + [s]
  }

  function InternAll(progs: seq<seq<u8>>, requests: seq<seq<u8>>): seq<seq<u8>>
    decreases |requests|
  {
    if requests == [] then progs else InternAll(Interned(progs, requests[0]), requests[1..])
  }

  lemma {:induction false} ConcatAppend(progs: seq<seq<u8>>, s: seq<u8>)
    ensures Concat(progs + [s]) == Concat(progs) + s
  {
    if progs == [] {
      assert progs + [s] == [s];
      assert Concat([s]) == s + Concat([]);
    } else {
      assert (progs + [s])[1..] == progs[1..] + [s];
      ConcatAppend(progs[1..], s);
    }
  }

  /** Every interned program stands in the blob, whole, at its offset. */
  lemma {:induction false} OffsetLocates(progs: seq<seq<u8>>, s: seq<u8>)
    requires s in progs
    ensures OffsetOf(progs, s) + |s| <= |Concat(progs)|
    ensures Concat(progs)[OffsetOf(progs, s)..OffsetOf(progs, s) + |s|] == s
  {
    if progs[0] != s {
      OffsetLocates(progs[1..], s);
      var o := OffsetOf(progs[1..], s);
      assert Concat(progs)[|progs[0]| + o..|progs[0]| + o + |s|] == Concat(progs[1..])[o..o + |s|];
    }
  }

  lemma {:induction false} OffsetStable(progs: seq<seq<u8>>, more: seq<seq<u8>>, s: seq<u8>)
    requires s in progs
    ensures s in progs + more && OffsetOf(progs + more, s) == OffsetOf(progs, s)
  {
    if progs[0] != s {
      OffsetStable(progs[1..], more, s);
      assert (progs + more)[1..] == progs[1..] + more;
    }
  }

  lemma {:induction false} OffsetOfNew(progs: seq<seq<u8>>, s: seq<u8>)
    requires s !in progs
    ensures OffsetOf(progs + [s], s) == |Concat(progs)|
  {
    if progs != [] {
      OffsetOfNew(progs[1..], s);
      assert (progs + [s])[1..] == progs[1..] + [s];
    }
  }

  /** Interning never moves a program: the list only grows at its end, so offsets already handed out stay right. */
  lemma {:induction false} InternAllExtends(progs: seq<seq<u8>>, requests: seq<seq<u8>>)
    ensures progs <= InternAll(progs, requests)
    ensures forall s | s in requests && s != [] :: s in InternAll(progs, requests)
    decreases |requests|
  {
    if requests != [] {
      var next := Interned(progs, requests[0]);
      InternAllExtends(next, requests[1..]);
      forall s | s in requests && s != [] ensures s in InternAll(progs, requests) {
        if s == requests[0] {
          assert s in next;
        }
      }
    }
  }

  /** The blob's programs are exactly the requested ones, each once, in order of first use. */
  lemma {:induction false} InternAllDistinct(progs: seq<seq<u8>>, requests: seq<seq<u8>>)
    requires Distinct(progs)
    ensures Distinct(InternAll(progs, requests))
    ensures forall s :: s in InternAll(progs, requests) <==> s in progs || (s in requests && s != [])
    decreases |requests|
  {
    if requests != [] {
      var next := Interned(progs, requests[0]);
      InternAllDistinct(next, requests[1..]);
      assert requests == [requests[0]] + requests[1..];
    }
  }

  datatype Entry = Entry(off: nat, len: nat)

  /** The hash only chooses a bucket; everything below holds for any hash function. */
  class BlobDeduper {
    const hash: seq<u8> -> nat
    var blob: seq<u8>
    var buckets: map<nat, seq<Entry>>
    ghost var progs: seq<seq<u8>>

    ghost predicate Valid() reads this {
      && Distinct(progs) && [] !in progs
      && blob == Concat(progs)
      && (forall h, e | h in buckets && e in buckets[h] ::
            exists s :: s in progs && hash(s) == h && e == Entry(OffsetOf(progs, s), |s|))
      && (forall s | s in progs ::
            hash(s) in buckets && Entry(OffsetOf(progs, s), |s|) in buckets[hash(s)])
    }

    constructor (hash: seq<u8> -> nat)
      ensures Valid() && progs == [] && this.hash == hash
    {
      this.hash := hash;
      blob, buckets, progs := [], map[], [];
    }

    lemma EntryLocates(h: nat, e: Entry)
      requires Valid() && h in buckets && e in buckets[h]
      ensures e.off + e.len <= |blob|
      ensures blob[e.off..e.off + e.len] in progs && OffsetOf(progs, blob[e.off..e.off + e.len]) == e.off
    {
      var p :| p in progs && hash(p) == h && e == Entry(OffsetOf(progs, p), |p|);
      OffsetLocates(progs, p);
    }

    method Lookup(s: seq<u8>, bucket: seq<Entry>) returns (found: bool, off: nat)
      requires Valid()
      requires bucket == if hash(s) in buckets then buckets[hash(s)] else []
      ensures found == (s in progs)
      ensures found ==> off == OffsetOf(progs, s)
    {
      if s in progs { OffsetLocates(progs, s); }
      hide OffsetOf, Concat, Distinct;
      for i := 0 to |bucket|
        invariant s in progs ==> forall k | 0 <= k < i :: bucket[k] != Entry(OffsetOf(progs, s), |s|)
      {
        var e := bucket[i];
        assert e in buckets[hash(s)];
        EntryLocates(hash(s), e);
        if e.len == |s| && blob[e.off..e.off + e.len] == s {
          return true, e.off;
        }
      }
      return false, 0;
    }

    method Intern(s: seq<u8>) returns (off: nat)
      requires Valid()
      modifies this`blob, this`buckets, this`progs
      ensures Valid()
      ensures progs == Interned(old(progs), s)
      ensures off == if s == [] then 0 else OffsetOf(progs, s)
    {
      if s == [] { return 0; }
      var h := hash(s);
      var bucket := if h in buckets then buckets[h] else [];
      var found, at := Lookup(s, bucket);
      if found { return at; }
      off := |blob|;
      Append(s, bucket);
    }

    method Append(s: seq<u8>, bucket: seq<Entry>)
      requires Valid() && s != [] && s !in progs
      requires bucket == if hash(s) in buckets then buckets[hash(s)] else []
      modifies this`blob, this`buckets, this`progs
      ensures Valid() && progs == old(progs) + [s]
      ensures OffsetOf(progs, s) == |old(blob)|
    {
      hide OffsetOf, Concat, Distinct;
      ghost var before := progs;
      SingleDistinct(s);
      DistinctAppend(before, [s]);
      OffsetOfNew(before, s);
      ConcatAppend(before, s);
      forall p | p in before
        ensures p in before + [s] && OffsetOf(before + [s], p) == OffsetOf(before, p)
      {
        OffsetStable(before, [s], p);
      }
      buckets := buckets[hash(s) := bucket + [Entry(|blob|, |s|)]];
      blob := blob + s;
      progs := progs + [s];
    }
  }

  lemma SingleDistinct(s: seq<u8>)
    ensures Distinct([s])
  {
  }

  // ---------------------------------------------------------------- the table

  function Use(used: bool, p: seq<u8>): seq<seq<u8>> { if used then [p] else [] }

  function Requested(specs: seq<Spec>): seq<seq<u8>> {
    if specs == [] then []
    else
      Use(specs[0].UsesLhsProg(), specs[0].lhsProg) +
      (Use(specs[0].UsesRhsProg(), specs[0].rhsProg) + Requested(specs[1..]))
  }

  /** The distinct programs of a specification list, in order of first use. */
  function Programs(specs: seq<Spec>): seq<seq<u8>> { InternAll([], Requested(specs)) }

  /** A record before its program offsets are filled in. */
  function BareRecord(s: Spec): Record {
    Record(s.id, s.requiredBp, s.kind, if s.width != 0 then s.width else 4, s.cmp,
           if s.rhsKey.Some? then WithFlag(s.flags, RHS_IS_KEY) else s.flags,
           if s.turnMask != 0 then s.turnMask else 0xFFFF_FFFF,
           s.lhsAddr, if s.lhsKey.Some? then s.lhsKey.value else 0, 0,
           if s.rhsKey.Some? then 0 else s.rhsValue, if s.rhsKey.Some? then s.rhsKey.value else 0, 0)
  }

  function OffsetFor(progs: seq<seq<u8>>, base: nat, used: bool, p: seq<u8>): nat
    requires used ==> p in progs
  {
    if used then base + OffsetOf(progs, p) else 0
  }

  /** Offsets are 32-bit fields; the table is assumed to stay below 4 GiB. */
  ghost predicate Fits(specs: seq<Spec>) {
    |specs| * RECORD_SIZE + |Concat(Programs(specs))| < 0x1_0000_0000
  }

  ghost predicate RecordFor(r: Record, s: Spec, progs: seq<seq<u8>>, base: nat) {
    && (s.UsesLhsProg() ==> s.lhsProg in progs)
    && (s.UsesRhsProg() ==> s.rhsProg in progs)
    && r == BareRecord(s).(lhsOffset := r.lhsOffset, rhsOffset := r.rhsOffset)
    && r.lhsOffset == OffsetFor(progs, base, s.UsesLhsProg(), s.lhsProg)
    && r.rhsOffset == OffsetFor(progs, base, s.UsesRhsProg(), s.rhsProg)
  }

  lemma RequestedHead(specs: seq<Spec>, i: nat)
    requires i < |specs|
    ensures Requested(specs[i..]) ==
            Use(specs[i].UsesLhsProg(), specs[i].lhsProg) +
            (Use(specs[i].UsesRhsProg(), specs[i].rhsProg) + Requested(specs[i + 1..]))
  {
    assert specs[i..][1..] == specs[i + 1..];
  }

  /** An offset computed when only the first requests were interned is the offset in the final blob. */
  lemma OffsetIsFinal(progs: seq<seq<u8>>, rest: seq<seq<u8>>, p: seq<u8>)
    requires p in progs
    ensures p in InternAll(progs, rest) && OffsetOf(InternAll(progs, rest), p) == OffsetOf(progs, p)
    ensures |Concat(progs)| <= |Concat(InternAll(progs, rest))|
  {
    InternAllExtends(progs, rest);
    var final := InternAll(progs, rest);
    assert final == progs + final[|progs|..];
    OffsetStable(progs, final[|progs|..], p);
    ConcatSplit(progs, final[|progs|..]);
  }

  lemma {:induction false} ConcatSplit(a: seq<seq<u8>>, b: seq<seq<u8>>)
    ensures Concat(a + b) == Concat(a) + Concat(b)
  {
    if a == [] {
      assert a + b == b;
    } else {
      assert (a + b)[1..] == a[1..] + b;
      ConcatSplit(a[1..], b);
    }
  }

  /** One program slot of a record: interns the program when the record uses it. */
  method PlaceProgram(dedupe: BlobDeduper, used: bool, p: seq<u8>, base: nat,
                      ghost rest: seq<seq<u8>>, ghost final: seq<seq<u8>>) returns (off: u32)
    requires dedupe.Valid() && (used ==> p != [])
    requires InternAll(dedupe.progs, Use(used, p) + rest) == final
    requires base + |Concat(final)| < 0x1_0000_0000
    modifies dedupe`blob, dedupe`buckets, dedupe`progs
    ensures dedupe.Valid() && InternAll(dedupe.progs, rest) == final
    ensures used ==> p in final
    ensures off == OffsetFor(final, base, used, p)
  {
    off := 0;
    if used {
      assert ([p] + rest)[1..] == rest;
      var o := dedupe.Intern(p);
      OffsetIsFinal(dedupe.progs, rest, p);
      OffsetLocates(final, p);
      off := base + o;
    } else {
      assert [] + rest == rest;
    }
  }

  method BareRecords(specs: seq<Spec>) returns (records: seq<Record>)
    ensures |records| == |specs|
    ensures forall j | 0 <= j < |specs| :: records[j] == BareRecord(specs[j])
  {
    records := [];
    for i := 0 to |specs|
      invariant |records| == i
      invariant forall j | 0 <= j < i :: records[j] == BareRecord(specs[j])
    {
      records := records + [BareRecord(specs[i])];
    }
  }

  /** Both passes of the table builder: bare records first, then offsets while the programs are interned. */
  method BuildTable(specs: seq<Spec>, hash: seq<u8> -> nat) returns (records: seq<Record>, blob: seq<u8>)
    requires Fits(specs)
    ensures |records| == |specs|
    ensures forall i | 0 <= i < |specs| :: RecordFor(records[i], specs[i], Programs(specs), |specs| * RECORD_SIZE)
    ensures blob == Concat(Programs(specs))
  {
    records := BareRecords(specs);
    if records == [] { return [], []; }

    var dedupe := new BlobDeduper(hash);
    var base := |records| * RECORD_SIZE;
    ghost var final := Programs(specs);
    for i := 0 to |specs|
      invariant fresh(dedupe) && dedupe.Valid() && |records| == |specs|
      invariant InternAll(dedupe.progs, Requested(specs[i..])) == final
      invariant forall j | 0 <= j < i :: RecordFor(records[j], specs[j], final, base)
      invariant forall j | i <= j < |specs| :: records[j] == BareRecord(specs[j])
    {
      var s := specs[i];
      RequestedHead(specs, i);
      ghost var later := Requested(specs[i + 1..]);
      var lhs := PlaceProgram(dedupe, s.UsesLhsProg(), s.lhsProg, base, Use(s.UsesRhsProg(), s.rhsProg) + later, final);
      var rhs := PlaceProgram(dedupe, s.UsesRhsProg(), s.rhsProg, base, later, final);
      records := records[i := records[i].(lhsOffset := lhs, rhsOffset := rhs)];
    }
    blob := dedupe.blob;
    assert specs[|specs|..] == [];
  }

  // ---------------------------------------------------------------- the table as bytes

  function HeadBytes(r: Record): (b: seq<u8>)
    ensures |b| == 16
  {
    Le16(r.id) + Le16(r.requiredBp) + [r.kind, r.width, r.cmp, r.flags] + Le32(r.turnMask) + Le32(r.lhsAddr)
  }

  function TailBytes(r: Record): (b: seq<u8>)
    ensures |b| == 20
  {
    Le16(r.lhsAddrKey) + Le32(r.lhsOffset) + Le64(r.rhsImm) + Le16(r.rhsAddrKey) + Le32(r.rhsOffset)
  }

  /** The packed struct image, as memcpy copies it. */
  function RecordBytes(r: Record): (b: seq<u8>)
    ensures |b| == RECORD_SIZE
  {
    HeadBytes(r) + TailBytes(r)
  }

  function TableBytes(records: seq<Record>): (b: seq<u8>)
    ensures |b| == |records| * RECORD_SIZE
  {
    if records == [] then [] else RecordBytes(records[0]) + TableBytes(records[1..])
  }

  /** Entry i of a byte table, seen through a pointer to the packed struct. */
  function RecordAt(table: seq<u8>, i: nat): Record
    requires (i + 1) * RECORD_SIZE <= |table|
  {
    ParseRecord(table, i * RECORD_SIZE)
  }

  function ParseRecord(table: seq<u8>, p: nat): Record
    requires p + RECORD_SIZE <= |table|
  {
    Record(Get16(table, p), Get16(table, p + 2), table[p + 4], table[p + 5], table[p + 6], table[p + 7],
           Get32(table, p + 8), Get32(table, p + 12), Get16(table, p + 16), Get32(table, p + 18),
           Get64(table, p + 22), Get16(table, p + 30), Get32(table, p + 32))
  }

  lemma ReadHead(pre: seq<u8>, r: Record, post: seq<u8>)
    ensures var b, p := pre + HeadBytes(r) + post, |pre|;
            && Get16(b, p) == r.id && Get16(b, p + 2) == r.requiredBp
            && b[p + 4] == r.kind && b[p + 5] == r.width && b[p + 6] == r.cmp && b[p + 7] == r.flags
            && Get32(b, p + 8) == r.turnMask && Get32(b, p + 12) == r.lhsAddr
  {
    var b := pre + HeadBytes(r) + post;
    var x0, x1, x2, x3, x4 := Le16(r.id), Le16(r.requiredBp), [r.kind, r.width, r.cmp, r.flags], Le32(r.turnMask), Le32(r.lhsAddr);
    assert b == pre + x0 + (x1 + x2 + x3 + x4 + post);
    Get16Le16(pre, r.id, x1 + x2 + x3 + x4 + post);
    assert b == (pre + x0) + x1 + (x2 + x3 + x4 + post);
    Get16Le16(pre + x0, r.requiredBp, x2 + x3 + x4 + post);
    assert b == (pre + x0 + x1) + x2 + (x3 + x4 + post);
    assert b == (pre + x0 + x1 + x2) + x3 + (x4 + post);
    Get32Le32(pre + x0 + x1 + x2, r.turnMask, x4 + post);
    assert b == (pre + x0 + x1 + x2 + x3) + x4 + post;
    Get32Le32(pre + x0 + x1 + x2 + x3, r.lhsAddr, post);
  }

  lemma ReadTail(pre: seq<u8>, r: Record, post: seq<u8>)
    ensures var b, p := pre + TailBytes(r) + post, |pre|;
            && Get16(b, p) == r.lhsAddrKey && Get32(b, p + 2) == r.lhsOffset
            && Get64(b, p + 6) == r.rhsImm && Get16(b, p + 14) == r.rhsAddrKey && Get32(b, p + 16) == r.rhsOffset
  {
    var b := pre + TailBytes(r) + post;
    var x0, x1, x2, x3, x4 := Le16(r.lhsAddrKey), Le32(r.lhsOffset), Le64(r.rhsImm), Le16(r.rhsAddrKey), Le32(r.rhsOffset);
    assert b == pre + x0 + (x1 + x2 + x3 + x4 + post);
    Get16Le16(pre, r.lhsAddrKey, x1 + x2 + x3 + x4 + post);
    assert b == (pre + x0) + x1 + (x2 + x3 + x4 + post);
    Get32Le32(pre + x0, r.lhsOffset, x2 + x3 + x4 + post);
    assert b == (pre + x0 + x1) + x2 + (x3 + x4 + post);
    Get64Le64(pre + x0 + x1, r.rhsImm, x3 + x4 + post);
    assert b == (pre + x0 + x1 + x2) + x3 + (x4 + post);
    Get16Le16(pre + x0 + x1 + x2, r.rhsAddrKey, x4 + post);
    assert b == (pre + x0 + x1 + x2 + x3) + x4 + post;
    Get32Le32(pre + x0 + x1 + x2 + x3, r.rhsOffset, post);
  }

  lemma ParseRecordBytes(pre: seq<u8>, r: Record, post: seq<u8>)
    ensures ParseRecord(pre + RecordBytes(r) + post, |pre|) == r
  {
    assert pre + RecordBytes(r) + post == pre + HeadBytes(r) + (TailBytes(r) + post) == (pre + HeadBytes(r)) + TailBytes(r) + post;
    ReadHead(pre, r, TailBytes(r) + post);
    ReadTail(pre + HeadBytes(r), r, post);
  }

  lemma {:induction false} TableAt(records: seq<Record>, i: nat) returns (pre: seq<u8>, post: seq<u8>)
    requires i < |records|
    ensures TableBytes(records) == pre + RecordBytes(records[i]) + post && |pre| == i * RECORD_SIZE
  {
    hide RecordBytes;
    if i == 0 {
      pre, post := [], TableBytes(records[1..]);
    } else {
      pre, post := TableAt(records[1..], i - 1);
      pre := RecordBytes(records[0]) + pre;
    }
  }

  /** Records survive the trip through bytes, with anything behind the table. */
  lemma RecordRoundTrip(records: seq<Record>, i: nat, post: seq<u8>)
    requires i < |records|
    ensures RecordAt(TableBytes(records) + post, i) == records[i]
  {
    hide RecordBytes, ParseRecord, TableBytes;
    var pre, rest := TableAt(records, i);
    assert TableBytes(records) + post == pre + RecordBytes(records[i]) + (rest + post);
    ParseRecordBytes(pre, records[i], rest + post);
  }

  /** Main result: where the fields of record i stand in the table. */
  lemma RecordLayout(table: seq<u8>, i: nat)
    requires (i + 1) * RECORD_SIZE <= |table|
    ensures var r, b := RecordAt(table, i), table[i * 36..(i + 1) * 36];
            && |b| == 36
            && r.id == b[0] as int + 256 * b[1] as int && r.requiredBp == b[2] as int + 256 * b[3] as int
            && r.kind == b[4] && r.width == b[5] && r.cmp == b[6] && r.flags == b[7]
            && Spells(b, 8, r.turnMask) && Spells(b, 12, r.lhsAddr) && r.lhsAddrKey == b[16] as int + 256 * b[17] as int
            && Spells(b, 18, r.lhsOffset) && Spells(b, 22, r.rhsImm % 4294967296) && Spells(b, 26, r.rhsImm / 4294967296)
            && r.rhsAddrKey == b[30] as int + 256 * b[31] as int && Spells(b, 32, r.rhsOffset)
  {
  }

  /** Main result: what a built record says of its specification, with widths and masks filled in. */
  lemma RecordMeans(r: Record, s: Spec, progs: seq<seq<u8>>, base: nat)
    requires RecordFor(r, s, progs, base)
    ensures r.id == s.id && r.requiredBp == s.requiredBp && r.kind == s.kind && r.cmp == s.cmp && r.lhsAddr == s.lhsAddr
    ensures r.width == if s.width == 0 then 4 else s.width
    ensures r.turnMask == if s.turnMask == 0 then 4294967295 else s.turnMask
    ensures r.lhsAddrKey == match s.lhsKey case None => 0 case Some(k) => k
    ensures match s.rhsKey
            case None => r.rhsImm == s.rhsValue && r.rhsAddrKey == 0 && r.flags == s.flags
            case Some(k) => r.rhsImm == 0 && r.rhsAddrKey == k && r.flags == if s.flags / 4 % 2 == 1 then s.flags else s.flags + 4
    ensures r.lhsOffset != 0 ==> s.lhsProg != [] && s.flags / 8 % 2 == 1
    ensures r.rhsOffset != 0 ==> s.rhsProg != [] && s.flags / 16 % 2 == 1
    ensures s.lhsProg != [] && s.flags / 8 % 2 == 1 ==> s.lhsProg in progs && r.lhsOffset >= base
    ensures s.rhsProg != [] && s.flags / 16 % 2 == 1 ==> s.rhsProg in progs && r.rhsOffset >= base
  {
  }

  // ---------------------------------------------------------------- packing preserves meaning

  /** One operand read through a program whose first byte is at p: the region of the leading key decides
      where the final address is read. */
  function ReadAt(b: seq<u8>, p: nat, width: u8, m: Machine): Option<u64> {
    if p + 3 > |b| || b[p] != 1 then None
    else
      match Exec(b, p, RESET, m)
      case None => None
      case Some(va) =>
        if width !in {1, 2, 4, 8} then None
        else
          match m.region(Get16(b, p + 1))
          case Derived => if m.derived.None? then None else (m.derived.value)(va, width)
          case _ => m.mem(va, width)
  }

  /** What reading an operand gives. Outside: the read leaves the table. */
  datatype Operand = Missing | Got(bits: u64) | Outside

  /** The operand of a stored offset. The bounds test adds in 32 bits, so the last three offsets wrap around
      and pass it. */
  function ReadOperand(table: seq<u8>, offset: u32, width: u8, m: Machine): Operand {
    if offset == 0 || Wrap32(offset as int + 3) > |table| then Missing
    else if offset >= |table| || (offset + 3 > |table| && table[offset] == 1) then Outside
    else match ReadAt(table, offset, width, m) case None => Missing case Some(v) => Got(v)
  }

  method ReadViaAddrProg(m: Machine, table: seq<u8>, offset: u32, width: u8) returns (r: Operand)
    ensures r == ReadOperand(table, offset, width, m)
  {
    if offset == 0 { return Missing; }
    if Wrap32(offset as int + 3) > |table| { return Missing; }
    if offset >= |table| { return Outside; }
    if table[offset] != 1 { return Missing; }
    if offset + 3 > |table| { return Outside; }
    var region := m.region(Get16(table, offset + 1));
    var done, va := Execute(table, offset, m);
    if !done { return Missing; }
    var v: Option<u64> := None;
    match region {
      case Derived =>
        if m.derived.None? { return Missing; }
        if width in {1, 2, 4, 8} { v := (m.derived.value)(va, width); }
      case _ =>
        if width !in {1, 2, 4, 8} { return Missing; }
        v := m.mem(va, width);
    }
    if v.None? { return Missing; }
    return Got(v.value);
  }

  /** Main result: an operand read through its program: the program stands inside the table, starts with a base key, leads to
      an address, and the word there is read in the region of that key, in one of the four widths. */
  lemma ReadMeans(table: seq<u8>, offset: u32, width: u8, m: Machine, bits: u64)
    requires ReadOperand(table, offset, width, m) == Got(bits)
    ensures 0 < offset && offset + 3 <= |table| && table[offset] == 1 && width in {1, 2, 4, 8}
    ensures var key := table[offset + 1] as int + 256 * table[offset + 2] as int;
            exists va: u32 ::
              && Exec(table, offset, Cpu(0, None), m) == Some(va)
              && Some(bits) == if m.region(key) != Derived then m.mem(va, width) else if m.derived.None? then None else (m.derived.value)(va, width)
  {
    hide Exec;
    assert Exec(table, offset, RESET, m).Some?;
  }

  /** The first offset whose bounds test wraps around. */
  const WRAP_START: u32 := 0xFFFF_FFFD

  /** Main result: in any table of at least one record that leaves room below 4 GiB for the wrap, a read leaves the
      table exactly for the last three offsets, whatever the program or the machine. */
  lemma OutsideExactlyWhen(table: seq<u8>, offset: u32, width: u8, m: Machine)
    requires RECORD_SIZE <= |table| <= WRAP_START
    ensures ReadOperand(table, offset, width, m).Outside? <==> offset >= WRAP_START
  {
    hide ReadAt;
  }

  lemma ThreeParts(header: seq<u8>, all: seq<u8>, i: nat, k: nat)
    requires i <= k <= |all|
    ensures header + all == (header + all[..i]) + all[i..k] + all[k..]
  {
    assert all == all[..i] + all[i..k] + all[k..];
  }

  lemma TableAround(header: seq<u8>, progs: seq<seq<u8>>, p: seq<u8>) returns (pre: seq<u8>, post: seq<u8>)
    requires p in progs
    ensures header + Concat(progs) == pre + p + post && |pre| == |header| + OffsetOf(progs, p)
  {
    OffsetLocates(progs, p);
    hide Concat, OffsetOf;
    var o, all := OffsetOf(progs, p), Concat(progs);
    pre, post := header + all[..o], all[o + |p|..];
    ThreeParts(header, all, o, o + |p|);
  }

  /** A program that yields an operand on its own yields the same one behind any header of records. */
  lemma PackedOperand(header: seq<u8>, progs: seq<seq<u8>>, p: seq<u8>, width: u8, m: Machine)
    requires p in progs && ReadAt(p, 0, width, m).Some?
    ensures ReadAt(header + Concat(progs), |header| + OffsetOf(progs, p), width, m) == ReadAt(p, 0, width, m)
  {
    var pre, post := TableAround(header, progs, p);
    var b := pre + p + post;
    ExecRelocates(pre, p, post, 0, RESET, m);
    assert b[|pre|] == p[0] && b[|pre| + 1] == p[1] && b[|pre| + 2] == p[2];
  }

  /** At offset `at` of the table stands a program that behaves as p does on its own, whenever p succeeds. */
  ghost predicate Agrees(table: seq<u8>, at: u32, p: seq<u8>, width: u8, m: Machine) {
    && (Exec(p, 0, RESET, m).Some? ==> Exec(table, at, RESET, m) == Exec(p, 0, RESET, m))
    && (ReadAt(p, 0, width, m).Some? ==> ReadOperand(table, at, width, m) == Got(ReadAt(p, 0, width, m).value))
  }

  lemma PackedSide(header: seq<u8>, progs: seq<seq<u8>>, p: seq<u8>, width: u8, m: Machine)
    requires p in progs && 0 < |header| + OffsetOf(progs, p) < 0x1_0000_0000
    ensures Agrees(header + Concat(progs), |header| + OffsetOf(progs, p), p, width, m)
  {
    if Exec(p, 0, RESET, m).Some? {
      var pre, post := TableAround(header, progs, p);
      ExecRelocates(pre, p, post, 0, RESET, m);
    }
    if ReadAt(p, 0, width, m).Some? {
      PackedOperand(header, progs, p, width, m);
      OffsetLocates(progs, p);
    }
  }

  /** Main result: in the table the builder produced, record i reads back as built, and each stored offset is
      non-zero and runs the specification's own program to the same address and the same operand. */
  lemma PackingPreservesMeaning(specs: seq<Spec>, records: seq<Record>, i: nat, width: u8, m: Machine)
    requires i < |specs| == |records|
    requires forall j | 0 <= j < |specs| :: RecordFor(records[j], specs[j], Programs(specs), |specs| * RECORD_SIZE)
    ensures var table := TableBytes(records) + Concat(Programs(specs));
            var s, r := specs[i], RecordAt(table, i);
            && r == records[i]
            && (s.UsesLhsProg() ==> r.lhsOffset != 0 && Agrees(table, r.lhsOffset, s.lhsProg, width, m))
            && (s.UsesRhsProg() ==> r.rhsOffset != 0 && Agrees(table, r.rhsOffset, s.rhsProg, width, m))
  {
    hide Exec, ReadAt, ParseRecord, TableBytes, Concat, BareRecord;
    RecordRoundTrip(records, i, Concat(Programs(specs)));
    var s := specs[i];
    if s.UsesLhsProg() { PackedSide(TableBytes(records), Programs(specs), s.lhsProg, width, m); }
    if s.UsesRhsProg() { PackedSide(TableBytes(records), Programs(specs), s.rhsProg, width, m); }
  }

  /** Main result: the builder stores only offsets whose programs lie inside the table, so a stored offset is below
      the wrap unless the table all but fills 4 GiB and ends in a program too short to name a base key. */
  lemma PackedOffsetsInside(specs: seq<Spec>, records: seq<Record>, i: nat)
    requires Fits(specs) && i < |specs| == |records|
    requires forall j | 0 <= j < |specs| :: RecordFor(records[j], specs[j], Programs(specs), |specs| * RECORD_SIZE)
    ensures var s, r, size := specs[i], records[i], |TableBytes(records) + Concat(Programs(specs))|;
            && (r.lhsOffset != 0 ==> r.lhsOffset as int + |s.lhsProg| <= size)
            && (r.rhsOffset != 0 ==> r.rhsOffset as int + |s.rhsProg| <= size)
            && (r.lhsOffset >= WRAP_START ==> size > WRAP_START && |s.lhsProg| < 3)
            && (r.rhsOffset >= WRAP_START ==> size > WRAP_START && |s.rhsProg| < 3)
  {
    hide TableBytes, Concat, Programs, OffsetOf, BareRecord;
    var s := specs[i];
    assert RecordFor(records[i], s, Programs(specs), |specs| * RECORD_SIZE);
    if s.UsesLhsProg() { OffsetLocates(Programs(specs), s.lhsProg); }
    if s.UsesRhsProg() { OffsetLocates(Programs(specs), s.rhsProg); }
  }

  /** For a program the assembler closed with End the agreement is complete: failing loads fail in the table too. */
  lemma PackedAssembledProgram(header: seq<u8>, progs: seq<seq<u8>>, ops: seq<Op>, m: Machine)
    requires End in ops && Assemble(ops) in progs
    ensures Exec(header + Concat(progs), |header| + OffsetOf(progs, Assemble(ops)), RESET, m) == Fold(ops, RESET, m)
  {
    hide Exec, Fold, Assemble, Concat;
    var pre, post := TableAround(header, progs, Assemble(ops));
    AssembledRunsAsFold(pre, ops, post, RESET, m);
  }

  /** The blob holds exactly the programs in use, each once. */
  lemma ProgramsExact(specs: seq<Spec>)
    ensures Distinct(Programs(specs))
    ensures forall p :: p in Programs(specs) <==> p in Requested(specs) && p != []
  {
    InternAllDistinct([], Requested(specs));
  }
}
