/** Fixed-width machine words and the little-endian layout every wire format of the simulator shares. */
module Bytes {

  type u8 = x: int | 0 <= x < 0x100
  type u16 = x: int | 0 <= x < 0x1_0000
  type u32 = x: int | 0 <= x < 0x1_0000_0000
  type u64 = x: int | 0 <= x < 0x1_0000_0000_0000_0000
  type i32 = x: int | -0x8000_0000 <= x < 0x8000_0000

  datatype Option<+T> = None | Some(value: T)

  /** Reduction to 32 bits, as unsigned C++ arithmetic does it (also for negative operands). */
  function Wrap32(x: int): u32 { x % 0x1_0000_0000 }

  function Wrap64(x: int): u64 { x % 0x1_0000_0000_0000_0000 }

  function Le16(v: u16): (b: seq<u8>)
    ensures |b| == 2
  {
    [v % 256, v / 256]
  }

  function Le32(v: u32): (b: seq<u8>)
    ensures |b| == 4
  {
    [v % 256, v / 256 % 256, v / 256 / 256 % 256, v / 256 / 256 / 256]
  }

  function Le64(v: u64): (b: seq<u8>)
    ensures |b| == 8
  {
    Le32(v % 0x1_0000_0000) + Le32(v / 0x1_0000_0000)
  }

  function Get16(b: seq<u8>, p: nat): u16
    requires p + 2 <= |b|
  {
    b[p] as int + 0x100 * b[p + 1] as int
  }

  function Get32(b: seq<u8>, p: nat): u32
    requires p + 4 <= |b|
  {
    b[p] as int + 0x100 * b[p + 1] as int + 0x1_0000 * b[p + 2] as int + 0x100_0000 * b[p + 3] as int
  }

  function Get64(b: seq<u8>, p: nat): u64
    requires p + 8 <= |b|
  {
    Get32(b, p) + 0x1_0000_0000 * Get32(b, p + 4)
  }

  lemma Get16Le16(pre: seq<u8>, v: u16, post: seq<u8>)
    ensures Get16(pre + Le16(v) + post, |pre|) == v
  {
    var b := pre + Le16(v) + post;
    assert b[|pre|] == Le16(v)[0] && b[|pre| + 1] == Le16(v)[1];
  }

  lemma Get32Le32(pre: seq<u8>, v: u32, post: seq<u8>)
    ensures Get32(pre + Le32(v) + post, |pre|) == v
  {
    var b := pre + Le32(v) + post;
    assert forall i | 0 <= i < 4 :: b[|pre| + i] == Le32(v)[i];
    assert b[|pre|] == Le32(v)[0];
  }

  lemma Get64Le64(pre: seq<u8>, v: u64, post: seq<u8>)
    ensures Get64(pre + Le64(v) + post, |pre|) == v
  {
    var lo, hi := v % 0x1_0000_0000, v / 0x1_0000_0000;
    var b := pre + Le64(v) + post;
    assert b == pre + Le32(lo) + (Le32(hi) + post);
    assert b == (pre + Le32(lo)) + Le32(hi) + post;
    Get32Le32(pre, lo, Le32(hi) + post);
    Get32Le32(pre + Le32(lo), hi, post);
  }

  /** Reading depends only on the bytes read: a longer or shifted buffer gives the same word. */
  lemma Get32Local(a: seq<u8>, p: nat, b: seq<u8>, q: nat)
    requires p + 4 <= |a| && q + 4 <= |b|
    requires a[p..p + 4] == b[q..q + 4]
    ensures Get32(a, p) == Get32(b, q)
  {
    var w := a[p..p + 4];
    assert w[0] == a[p] && w[1] == a[p + 1] && w[2] == a[p + 2] && w[3] == a[p + 3];
    assert w[0] == b[q] && w[1] == b[q + 1] && w[2] == b[q + 2] && w[3] == b[q + 3];
  }

  /** Four bytes as the number they stand for, least significant first. */
  ghost predicate Spells(b: seq<u8>, p: nat, v: int) {
    p + 4 <= |b| && v == b[p] as int + 256 * (b[p + 1] as int + 256 * (b[p + 2] as int + 256 * b[p + 3] as int))
  }

  /** Main result: words stand in the buffers least significant byte first. */
  lemma LittleEndian(b: seq<u8>, p: nat)
    requires p + 8 <= |b|
    ensures Spells(b, p, Get32(b, p))
    ensures Get64(b, p) == Get32(b, p) + 4294967296 * Get32(b, p + 4)
    ensures Get16(b, p) == b[p] as int + 256 * b[p + 1] as int
  {
  }
}
