/** The wire form of a result context: a header, then one tagged entry per encodable key, in any order. */
module ContextCodec {
  import opened Bytes
  import opened ScriptContext

  const CTX_MAGIC: u32 := 0x3258_5443
  const CTX_VERSION: u16 := 1
  const HEADER_SIZE: nat := 12
  const PREFIX_SIZE: nat := 8

  const TYPE_U8: u8 := 0x01
  const TYPE_U16: u8 := 0x02
  const TYPE_U32: u8 := 0x03
  const TYPE_F32: u8 := 0x04
  const TYPE_F64: u8 := 0x05
  const TYPE_STR: u8 := 0x10

  // ---------------------------------------------------------------- encoding

  /** Input frames and battle paths have no wire form. */
  predicate Encodable(v: Value) { !v.Frame? && !v.Path? }

  function TypeCode(v: Value): u8
    requires Encodable(v)
  {
    match v
    case U8(_) => TYPE_U8
    case U16(_) => TYPE_U16
    case U32(_) => TYPE_U32
    case F32(_) => TYPE_F32
    case F64(_) => TYPE_F64
    case Str(_) => TYPE_STR
  }

  function ValueBytes(v: Value): seq<u8>
    requires Encodable(v)
  {
    match v
    case U8(x) => [x]
    case U16(x) => Le16(x)
    case U32(x) => Le32(x)
    case F32(x) => Le32(x)
    case F64(x) => Le64(x)
    case Str(s) => s
  }

  function PrefixBytes(k: KeyId, code: u8, vlen: u32): (b: seq<u8>)
    ensures |b| == PREFIX_SIZE
  {
    Le16(k) + [code, 0] + Le32(vlen)
  }

  function EntryBytes(k: KeyId, v: Value): seq<u8>
    requires Encodable(v)
  {
    PrefixBytes(k, TypeCode(v), Wrap32(|ValueBytes(v)|)) + ValueBytes(v)
  }

  function EntriesBytes(c: Context, order: seq<KeyId>): seq<u8>
    requires forall k | k in order :: k in c
  {
    if order == [] then []
    else
      (if Encodable(c[order[0]]) then EntryBytes(order[0], c[order[0]]) else []) + EntriesBytes(c, order[1..])
  }

  function CountEncodable(c: Context, order: seq<KeyId>): (n: nat)
    requires forall k | k in order :: k in c
    ensures n <= |order|
  {
    if order == [] then 0
    else (if Encodable(c[order[0]]) then 1 else 0) + CountEncodable(c, order[1..])
  }

  function HeaderBytes(count: u32): (b: seq<u8>)
    ensures |b| == HEADER_SIZE
  {
    Le32(CTX_MAGIC) + Le16(CTX_VERSION) + Le16(0) + Le32(count)
  }

  /** The encoding when the hash map happens to be walked in the given order. */
  function ContextBytes(c: Context, order: seq<KeyId>): seq<u8>
    requires forall k | k in order :: k in c
  {
    HeaderBytes(Wrap32(CountEncodable(c, order))) + EntriesBytes(c, order)
  }

  /** An order in which a walk over the map meets every key once. */
  ghost predicate WalkOrder(c: Context, order: seq<KeyId>) {
    && (forall k :: k in order <==> k in c)
    && (forall i, j | 0 <= i < j < |order| :: order[i] != order[j])
  }

  lemma {:induction false} EntriesSnoc(c: Context, order: seq<KeyId>, k: KeyId)
    requires k in c && forall x | x in order :: x in c
    ensures EntriesBytes(c, order + [k]) ==
            EntriesBytes(c, order) + if Encodable(c[k]) then EntryBytes(k, c[k]) else []
    ensures CountEncodable(c, order + [k]) == CountEncodable(c, order) + if Encodable(c[k]) then 1 else 0
  {
    hide EntryBytes;
    if order == [] {
      assert order + [k] == [k];
      assert EntriesBytes(c, [k][1..]) == [];
    } else {
      assert (order + [k])[1..] == order[1..] + [k];
      EntriesSnoc(c, order[1..], k);
    }
  }

  /** The walk order is whatever the map's iteration gives; the result is right for that order. */
  method EncodeNumeric(c: Context) returns (out: seq<u8>, ghost order: seq<KeyId>)
    ensures WalkOrder(c, order) && out == ContextBytes(c, order)
  {
    hide EntryBytes, HeaderBytes, EntriesBytes, CountEncodable;
    var entries: seq<u8> := [];
    var count := 0;
    var todo := c.Keys;
    order := [];
    assert EntriesBytes(c, []) == [] && CountEncodable(c, []) == 0 by { EmptyOrder(c); }
    while todo != {}
      invariant todo <= c.Keys
      invariant forall k :: k in order <==> k in c && k !in todo
      invariant forall i, j | 0 <= i < j < |order| :: order[i] != order[j]
      invariant entries == EntriesBytes(c, order) && count == CountEncodable(c, order)
      decreases todo
    {
      var k :| k in todo;
      todo := todo - {k};
      EntriesSnoc(c, order, k);
      if Encodable(c[k]) {
        entries := entries + EntryBytes(k, c[k]);
        count := count + 1;
      }
      order := order + [k];
    }
    out := HeaderBytes(Wrap32(count)) + entries;
  }

  lemma EmptyOrder(c: Context)
    ensures EntriesBytes(c, []) == [] && CountEncodable(c, []) == 0
  {
  }

  // ---------------------------------------------------------------- where everything stands

  /** A value's tag and bytes. */
  ghost predicate Tagged(v: Value, code: u8, b: seq<u8>) {
    match v
    case U8(x) => code == 1 && b == [x]
    case U16(x) => code == 2 && |b| == 2 && x == b[0] as int + 256 * b[1] as int
    case U32(x) => code == 3 && |b| == 4 && Spells(b, 0, x)
    case F32(x) => code == 4 && |b| == 4 && Spells(b, 0, x)
    case F64(x) => code == 5 && |b| == 8 && Spells(b, 0, x % 4294967296) && Spells(b, 4, x / 4294967296)
    case Str(s) => code == 16 && b == s
    case _ => false
  }

  lemma ValueTagged(v: Value)
    requires Encodable(v)
    ensures Tagged(v, TypeCode(v), ValueBytes(v))
  {
  }

  /** Main result: an entry is its key, its tag, nothing, the size of its value, and the value. */
  lemma EntryLayout(k: KeyId, v: Value)
    requires Encodable(v)
    ensures var e := EntryBytes(k, v);
            && |e| >= 8 && k == e[0] as int + 256 * e[1] as int && e[3] == 0 && Spells(e, 4, (|e| - 8) % 4294967296)
            && Tagged(v, e[2], e[8..])
  {
    ValueTagged(v);
    hide Tagged, TypeCode, ValueBytes;
    assert EntryBytes(k, v)[8..] == ValueBytes(v);
  }

  /** Main result: the letters CTX2, the version, nothing, and the number of entries come first. */
  lemma ContextHead(count: u32)
    ensures var b := HeaderBytes(count);
            && b[0] == 'C' as int && b[1] == 'T' as int && b[2] == 'X' as int && b[3] == '2' as int
            && b[4..8] == [1, 0, 0, 0] && Spells(b, 8, count)
  {
  }

  // ---------------------------------------------------------------- decoding

  /** emplace: the first entry for a key wins. */
  function Emplace(c: Context, k: KeyId, v: Value): Context {
    if k in c then c else c[k := v]
  }

  datatype Reading = Bad | Skip | Good(value: Value)

  /** The value of vlen bytes at p: a size that contradicts the tag is an error, an unknown tag is skipped. */
  function GetValue(b: seq<u8>, p: nat, code: u8, vlen: u32): Reading
    requires p + vlen <= |b|
  {
    if code == TYPE_U8 then if vlen != 1 then Bad else Good(U8(b[p]))
    else if code == TYPE_U16 then if vlen != 2 then Bad else Good(U16(Get16(b, p)))
    else if code == TYPE_U32 then if vlen != 4 then Bad else Good(U32(Get32(b, p)))
    else if code == TYPE_F32 then if vlen != 4 then Bad else Good(F32(Get32(b, p)))
    else if code == TYPE_F64 then if vlen != 8 then Bad else Good(F64(Get64(b, p)))
    else if code == TYPE_STR then Good(Str(b[p..p + vlen]))
    else Skip
  }

  function DecodeEntries(b: seq<u8>, p: nat, n: nat, acc: Context): Option<Context>
    decreases n
  {
    if n == 0 then Some(acc)
    else if p + PREFIX_SIZE > |b| then None
    else
      var vlen := Get32(b, p + 4);
      if p + PREFIX_SIZE + vlen > |b| then None
      else
        match GetValue(b, p + PREFIX_SIZE, b[p + 2], vlen)
        case Bad => None
        case Skip => DecodeEntries(b, p + PREFIX_SIZE + vlen, n - 1, acc)
        case Good(v) => DecodeEntries(b, p + PREFIX_SIZE + vlen, n - 1, Emplace(acc, Get16(b, p), v))
  }

  function DecodeContext(b: seq<u8>): Option<Context> {
    if |b| < HEADER_SIZE || Get32(b, 0) != CTX_MAGIC || Get16(b, 4) != CTX_VERSION then None
    else DecodeEntries(b, HEADER_SIZE, Get32(b, 8), map[])
  }

  method DecodeNumeric(b: seq<u8>) returns (ok: bool, out: Context)
    ensures ok == DecodeContext(b).Some?
    ensures ok ==> out == DecodeContext(b).value
  {
    hide Get16, Get32, Get64;
    out := map[];
    if |b| < HEADER_SIZE { return false, out; }
    if Get32(b, 0) != CTX_MAGIC || Get16(b, 4) != CTX_VERSION { return false, out; }
    var p: nat := HEADER_SIZE;
    var count: nat := Get32(b, 8);
    for i := 0 to count
      invariant p <= |b|
      invariant DecodeEntries(b, p, count - i, out) == DecodeContext(b)
    {
      if |b| - p < PREFIX_SIZE { return false, out; }
      var key, code, vlen := Get16(b, p), b[p + 2], Get32(b, p + 4);
      p := p + PREFIX_SIZE;
      if |b| - p < vlen { return false, out; }
      var r := GetValue(b, p, code, vlen);
      if r.Bad? { return false, out; }
      if r.Good? { out := Emplace(out, key, r.value); }
      p := p + vlen;
    }
    return true, out;
  }

  // ---------------------------------------------------------------- round trip

  /** What survives the wire. */
  function Numeric(c: Context): Context {
    map k | k in c && Encodable(c[k]) :: c[k]
  }

  ghost predicate Sized(c: Context) {
    forall k | k in c && c[k].Str? :: |c[k].bytes| < 0x1_0000_0000
  }

  lemma ValueRoundTrip(pre: seq<u8>, v: Value, post: seq<u8>)
    requires Encodable(v) && |ValueBytes(v)| < 0x1_0000_0000
    ensures GetValue(pre + ValueBytes(v) + post, |pre|, TypeCode(v), |ValueBytes(v)|) == Good(v)
  {
    hide Le16, Le32, Le64, Get16, Get32, Get64;
    match v
    case U8(x) =>
    case U16(x) => Get16Le16(pre, x, post);
    case U32(x) => Get32Le32(pre, x, post);
    case F32(x) => Get32Le32(pre, x, post);
    case F64(x) => Get64Le64(pre, x, post);
    case Str(s) => assert (pre + s + post)[|pre|..|pre| + |s|] == s;
  }

  lemma PrefixReads(pre: seq<u8>, k: KeyId, code: u8, vlen: u32, post: seq<u8>)
    ensures var b, p := pre + PrefixBytes(k, code, vlen) + post, |pre|;
            Get16(b, p) == k && b[p + 2] == code && Get32(b, p + 4) == vlen
  {
    hide Le16, Le32, Get16, Get32;
    var b := pre + PrefixBytes(k, code, vlen) + post;
    assert b == pre + Le16(k) + ([code, 0] + Le32(vlen) + post);
    Get16Le16(pre, k, [code, 0] + Le32(vlen) + post);
    assert b == (pre + Le16(k) + [code, 0]) + Le32(vlen) + post;
    Get32Le32(pre + Le16(k) + [code, 0], vlen, post);
  }

  lemma EntryRoundTrip(pre: seq<u8>, k: KeyId, v: Value, post: seq<u8>, n: nat, acc: Context)
    requires Encodable(v) && |ValueBytes(v)| < 0x1_0000_0000
    ensures DecodeEntries(pre + EntryBytes(k, v) + post, |pre|, n + 1, acc)
         == DecodeEntries(pre + EntryBytes(k, v) + post, |pre + EntryBytes(k, v)|, n, Emplace(acc, k, v))
  {
    hide Get16, Get32, PrefixBytes, ValueBytes, TypeCode, GetValue;
    var h, x := PrefixBytes(k, TypeCode(v), |ValueBytes(v)|), ValueBytes(v);
    var b := pre + EntryBytes(k, v) + post;
    assert b == pre + h + (x + post) == (pre + h) + x + post;
    PrefixReads(pre, k, TypeCode(v), |x|, x + post);
    ValueRoundTrip(pre + h, v, post);
  }

  /** The encodable entries among the given keys. */
  function Kept(c: Context, order: seq<KeyId>): Context {
    map k | k in order && k in c && Encodable(c[k]) :: c[k]
  }

  lemma KeptCons(c: Context, order: seq<KeyId>, acc: Context)
    requires order != [] && order[0] in c && order[0] !in order[1..]
    requires forall k | k in order :: k !in acc
    ensures var k, rest := order[0], order[1..];
            acc + Kept(c, order) ==
            if Encodable(c[k]) then acc[k := c[k]] + Kept(c, rest) else acc + Kept(c, rest)
  {
    assert order == [order[0]] + order[1..];
  }

  lemma {:induction false} EntriesRoundTrip(pre: seq<u8>, c: Context, order: seq<KeyId>, acc: Context)
    requires Sized(c) && forall k | k in order :: k in c
    requires forall k | k in order :: k !in acc
    requires forall i, j | 0 <= i < j < |order| :: order[i] != order[j]
    ensures DecodeEntries(pre + EntriesBytes(c, order), |pre|, CountEncodable(c, order), acc)
         == Some(acc + Kept(c, order))
    decreases |order|
  {
    hide EntryBytes, DecodeEntries, Kept, Encodable;
    if order == [] {
      NoEntries(pre + EntriesBytes(c, order), |pre|, acc);
      NoneKept(c, acc);
    } else {
      var k, rest := order[0], order[1..];
      var tail := EntriesBytes(c, rest);
      KeptCons(c, order, acc);
      if Encodable(c[k]) {
        var e := EntryBytes(k, c[k]);
        ValueSize(c, k);
        EntryRoundTrip(pre, k, c[k], tail, CountEncodable(c, rest), acc);
        assert pre + EntriesBytes(c, order) == pre + e + tail == (pre + e) + tail;
        EntriesRoundTrip(pre + e, c, rest, acc[k := c[k]]);
      } else {
        assert EntriesBytes(c, order) == tail;
        EntriesRoundTrip(pre, c, rest, acc);
      }
    }
  }

  lemma NoneKept(c: Context, acc: Context)
    ensures acc + Kept(c, []) == acc
  {
  }

  lemma NoEntries(b: seq<u8>, p: nat, acc: Context)
    ensures DecodeEntries(b, p, 0, acc) == Some(acc)
  {
  }

  lemma ValueSize(c: Context, k: KeyId)
    requires Sized(c) && k in c && Encodable(c[k])
    ensures |ValueBytes(c[k])| < 0x1_0000_0000
  {
  }

  /** There are at most 2^16 keys, so the entry count always fits its field. */
  lemma {:induction false} KeysBound(order: seq<KeyId>, n: nat)
    requires forall k | k in order :: k < n
    requires forall i, j | 0 <= i < j < |order| :: order[i] != order[j]
    ensures |order| <= n
    decreases n
  {
    if order == [] {
      return;
    }
    assert order[0] in order;
    if n - 1 in order {
      var i :| 0 <= i < |order| && order[i] == n - 1;
      var rest := order[..i] + order[i + 1..];
      forall k | k in rest ensures k < n - 1 {
        var j :| 0 <= j < |rest| && rest[j] == k;
        var at := if j < i then j else j + 1;
        assert k == order[at] && k in order;
      }
      KeysBound(rest, n - 1);
    } else {
      KeysBound(order, n - 1);
    }
  }

  lemma HeaderReads(count: u32, post: seq<u8>)
    ensures var b := HeaderBytes(count) + post;
            Get32(b, 0) == CTX_MAGIC && Get16(b, 4) == CTX_VERSION && Get32(b, 8) == count
  {
    hide Le16, Le32, Get16, Get32;
    var b := HeaderBytes(count) + post;
    var x0, x1, x2, x3 := Le32(CTX_MAGIC), Le16(CTX_VERSION), Le16(0), Le32(count);
    assert b == [] + x0 + (x1 + x2 + x3 + post);
    Get32Le32([], CTX_MAGIC, x1 + x2 + x3 + post);
    assert b == x0 + x1 + (x2 + x3 + post);
    Get16Le16(x0, CTX_VERSION, x2 + x3 + post);
    assert b == (x0 + x1 + x2) + x3 + post;
    Get32Le32(x0 + x1 + x2, count, post);
  }

  /** Main result: whatever order the map is walked in, decoding recovers exactly the encodable entries. */
  lemma ContextRoundTrip(c: Context, order: seq<KeyId>)
    requires Sized(c) && WalkOrder(c, order)
    ensures DecodeContext(ContextBytes(c, order)) == Some(Numeric(c))
  {
    hide Get16, Get32, HeaderBytes, EntriesBytes, DecodeEntries;
    KeysBound(order, 0x1_0000);
    var n := CountEncodable(c, order);
    HeaderReads(n, EntriesBytes(c, order));
    EntriesRoundTrip(HeaderBytes(n), c, order, map[]);
    assert map[] + Kept(c, order) == Numeric(c);
    assert |ContextBytes(c, order)| >= HEADER_SIZE;
  }
}
