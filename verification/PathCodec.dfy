/** The nested, count-prefixed wire form of a battle path. */
module PathCodec {
  import opened Bytes
  import opened ActionTypes

  const ACTION_SIZE: nat := 8

  // ---------------------------------------------------------------- encoding

  function ActionBytes(a: ActionPlan): (b: seq<u8>)
    ensures |b| == ACTION_SIZE
  {
    [a.actorSlot, if a.isPrelude != 0 then 1 else 0, a.macro, 0] + Le32(a.targetMask as int)
  }

  function ActionsBytes(spec: TurnPlanSpec): (b: seq<u8>)
    ensures |b| == ACTION_SIZE * |spec|
  {
    if spec == [] then [] else ActionBytes(spec[0]) + ActionsBytes(spec[1..])
  }

  /** Counts are cast to 32 bits. */
  function TurnBytes(t: TurnPlan): seq<u8> {
    Le32(t.fakeAttackCount) + Le32(Wrap32(|t.spec|)) + ActionsBytes(t.spec)
  }

  function TurnsBytes(path: BattlePath): seq<u8> {
    if path == [] then [] else TurnBytes(path[0]) + TurnsBytes(path[1..])
  }

  function PathBytes(path: BattlePath): seq<u8> { Le32(Wrap32(|path|)) + TurnsBytes(path) }

  method EncodeTurn(turn: TurnPlan, buf: seq<u8>) returns (out: seq<u8>)
    ensures out == buf + TurnBytes(turn)
  {
    out := buf + Le32(turn.fakeAttackCount);
    out := out + Le32(Wrap32(|turn.spec|));
    for i := 0 to |turn.spec|
      invariant out + ActionsBytes(turn.spec[i..]) == buf + TurnBytes(turn)
    {
      out := out + ActionBytes(turn.spec[i]);
      assert turn.spec[i..][1..] == turn.spec[i + 1..];
    }
    assert turn.spec[|turn.spec|..] == [];
  }

  method EncodeTurnPlans(path: BattlePath) returns (out: seq<u8>)
    ensures out == PathBytes(path)
  {
    hide TurnBytes;
    out := Le32(Wrap32(|path|));
    for t := 0 to |path|
      invariant out + TurnsBytes(path[t..]) == PathBytes(path)
    {
      out := EncodeTurn(path[t], out);
      assert path[t..][1..] == path[t + 1..];
    }
    assert path[|path|..] == [];
  }

  // ---------------------------------------------------------------- where everything stands

  /** Where turn t begins: behind the count and, per turn before it, two words and eight bytes an action. */
  function TurnStart(path: BattlePath, t: nat): nat
    requires t <= |path|
  {
    if t == 0 then 4 else TurnStart(path, t - 1) + 8 + 8 * |path[t - 1].spec|
  }

  lemma SpellsAt(pre: seq<u8>, v: u32, post: seq<u8>)
    ensures Spells(pre + Le32(v) + post, |pre|, v)
  {
    var b := pre + Le32(v) + post;
    assert forall i | 0 <= i < 4 :: b[|pre| + i] == Le32(v)[i];
    assert b[|pre|] == Le32(v)[0];
  }

  lemma {:induction false} TurnsAt(path: BattlePath, t: nat) returns (pre: seq<u8>, post: seq<u8>)
    requires t < |path|
    ensures TurnsBytes(path) == pre + TurnBytes(path[t]) + post && |pre| + 4 == TurnStart(path, t)
  {
    hide TurnBytes;
    if t == 0 {
      pre, post := [], TurnsBytes(path[1..]);
    } else {
      pre, post := TurnsAt(path[1..], t - 1);
      TurnStartShift(path, t);
      TurnSize(path[0]);
      pre := TurnBytes(path[0]) + pre;
    }
  }

  lemma TurnSize(t: TurnPlan)
    ensures |TurnBytes(t)| == 8 + 8 * |t.spec|
  {
  }

  lemma {:induction false} TurnStartShift(path: BattlePath, t: nat)
    requires 0 < t <= |path|
    ensures TurnStart(path, t) == TurnStart(path[1..], t - 1) + 8 + 8 * |path[0].spec|
  {
    if t > 1 { TurnStartShift(path, t - 1); }
  }

  lemma {:induction false} ActionsAt(spec: TurnPlanSpec, a: nat) returns (pre: seq<u8>, post: seq<u8>)
    requires a < |spec|
    ensures ActionsBytes(spec) == pre + ActionBytes(spec[a]) + post && |pre| == 8 * a
  {
    hide ActionBytes;
    if a == 0 {
      pre, post := [], ActionsBytes(spec[1..]);
    } else {
      pre, post := ActionsAt(spec[1..], a - 1);
      pre := ActionBytes(spec[0]) + pre;
    }
  }

  /** The turn's bytes stand at its place. */
  lemma TurnPlace(path: BattlePath, t: nat) returns (pre: seq<u8>, post: seq<u8>)
    requires t < |path|
    ensures PathBytes(path) == pre + TurnBytes(path[t]) + post && |pre| == TurnStart(path, t)
  {
    hide TurnBytes, TurnsBytes, TurnStart;
    var before;
    before, post := TurnsAt(path, t);
    pre := Le32(Wrap32(|path|)) + before;
    assert Le32(Wrap32(|path|)) + (before + TurnBytes(path[t]) + post) == pre + TurnBytes(path[t]) + post;
  }

  lemma TwoWords(pre: seq<u8>, v: u32, w: u32, post: seq<u8>)
    ensures var b := pre + (Le32(v) + Le32(w)) + post; Spells(b, |pre|, v) && Spells(b, |pre| + 4, w)
  {
    SpellsAt(pre, v, Le32(w) + post);
    SpellsAt(pre + Le32(v), w, post);
    hide Le32, Spells;
    assert pre + (Le32(v) + Le32(w)) + post == pre + Le32(v) + (Le32(w) + post) == (pre + Le32(v)) + Le32(w) + post;
  }

  /** Main result: the count of turns comes first; every turn begins with its fake attacks and its number of actions. */
  lemma TurnLayout(path: BattlePath, t: nat)
    requires t < |path|
    ensures Spells(PathBytes(path), 0, |path| % 4294967296)
    ensures Spells(PathBytes(path), TurnStart(path, t), path[t].fakeAttackCount)
    ensures Spells(PathBytes(path), TurnStart(path, t) + 4, |path[t].spec| % 4294967296)
  {
    hide Le32, Spells, ActionsBytes, PathBytes, TurnStart;
    CountFirst(path);
    var pre, post := TurnPlace(path, t);
    var v, w, rest := path[t].fakeAttackCount, Wrap32(|path[t].spec|), ActionsBytes(path[t].spec);
    TwoWords(pre, v, w, rest + post);
    Inside(pre, Le32(v) + Le32(w), rest, post);
  }

  lemma Inside(pre: seq<u8>, a: seq<u8>, b: seq<u8>, post: seq<u8>)
    ensures pre + a + (b + post) == pre + (a + b) + post
  {
  }

  lemma CountFirst(path: BattlePath)
    ensures Spells(PathBytes(path), 0, |path| % 4294967296)
  {
    hide Le32, Spells, TurnsBytes;
    SpellsAt([], Wrap32(|path|), TurnsBytes(path));
    assert [] + Le32(Wrap32(|path|)) + TurnsBytes(path) == PathBytes(path);
  }

  /** The action's bytes stand at its place. */
  lemma ActionPlace(path: BattlePath, t: nat, a: nat) returns (pre: seq<u8>, post: seq<u8>)
    requires t < |path| && a < |path[t].spec|
    ensures PathBytes(path) == pre + ActionBytes(path[t].spec[a]) + post && |pre| == TurnStart(path, t) + 8 + 8 * a
  {
    hide Le32, ActionsBytes, ActionBytes, TurnStart;
    var head, tail := TurnPlace(path, t);
    var before, after := ActionsAt(path[t].spec, a);
    hide PathBytes;
    var words, action := Le32(path[t].fakeAttackCount) + Le32(Wrap32(|path[t].spec|)), ActionBytes(path[t].spec[a]);
    pre, post := head + (words + before), after + tail;
    assert head + (words + (before + action + after)) + tail == pre + action + post;
  }

  lemma EightBytes(pre: seq<u8>, first: seq<u8>, v: u32, post: seq<u8>)
    requires |first| == 4
    ensures var b, p := pre + (first + Le32(v)) + post, |pre|;
            b[p] == first[0] && b[p + 1] == first[1] && b[p + 2] == first[2] && b[p + 3] == first[3] && Spells(b, p + 4, v)
  {
    hide Le32, Spells;
    SpellsAt(pre + first, v, post);
    assert pre + (first + Le32(v)) + post == (pre + first) + Le32(v) + post;
  }

  lemma ActionSpells(pre: seq<u8>, plan: ActionPlan, post: seq<u8>)
    ensures var b, p := pre + ActionBytes(plan) + post, |pre|;
            && b[p] == plan.actorSlot && b[p + 1] == (if plan.isPrelude == 0 then 0 else 1) && b[p + 2] == plan.macro
            && b[p + 3] == 0 && Spells(b, p + 4, plan.targetMask as int)
  {
    hide Le32, Spells;
    EightBytes(pre, [plan.actorSlot, if plan.isPrelude != 0 then 1 else 0, plan.macro, 0], plan.targetMask as int, post);
  }

  /** Main result: the eight bytes of an action: its actor, its prelude flag, its macro, nothing, and its target mask. */
  lemma ActionLayout(path: BattlePath, t: nat, a: nat)
    requires t < |path| && a < |path[t].spec|
    ensures var b, p, plan := PathBytes(path), TurnStart(path, t) + 8 + 8 * a, path[t].spec[a];
            && p + 8 <= |b|
            && b[p] == plan.actorSlot && b[p + 1] == (if plan.isPrelude == 0 then 0 else 1) && b[p + 2] == plan.macro
            && b[p + 3] == 0 && Spells(b, p + 4, plan.targetMask as int)
  {
    hide Spells, ActionBytes, PathBytes, TurnStart;
    var pre, post := ActionPlace(path, t, a);
    ActionSpells(pre, path[t].spec[a], post);
  }

  // ---------------------------------------------------------------- decoding

  /** A read of n things from p: what was read, where the cursor stopped, and whether all n were there. */
  datatype Parsed<T> = Parsed(ok: bool, items: seq<T>, p: nat)

  function GetAction(b: seq<u8>, p: nat): ActionPlan
    requires p + ACTION_SIZE <= |b|
  {
    ActionPlan(b[p], if b[p + 1] != 0 then 1 else 0, b[p + 2], Get32(b, p + 4) as bv32, NO_ITEM)
  }

  function ParseActions(b: seq<u8>, p: nat, n: nat): (r: Parsed<ActionPlan>)
    requires p <= |b|
    ensures p <= r.p <= |b| && |r.items| <= n && (r.ok ==> |r.items| == n)
    decreases n
  {
    if n == 0 then Parsed(true, [], p)
    else if p + ACTION_SIZE > |b| then Parsed(false, [], p)
    else
      var r := ParseActions(b, p + ACTION_SIZE, n - 1);
      Parsed(r.ok, [GetAction(b, p)] + r.items, r.p)
  }

  /** A turn that is cut short leaves nothing behind. */
  function ParseTurn(b: seq<u8>, p: nat): (r: Parsed<TurnPlan>)
    requires p <= |b|
    ensures p <= r.p <= |b| && (r.ok ==> |r.items| == 1 && p + 8 <= r.p) && (!r.ok ==> r.items == [])
  {
    if p + 8 > |b| then Parsed(false, [], p)
    else
      var a := ParseActions(b, p + 8, Get32(b, p + 4));
      if a.ok then Parsed(true, [TurnPlan(Get32(b, p), a.items)], a.p) else Parsed(false, [], p)
  }

  /** Turns decoded before a failure stay in the result. */
  function ParseTurns(b: seq<u8>, p: nat, n: nat): (r: Parsed<TurnPlan>)
    requires p <= |b|
    ensures p + 8 * |r.items| <= |b| && r.p <= |b| && |r.items| <= n && (r.ok ==> |r.items| == n)
    decreases n
  {
    if n == 0 then Parsed(true, [], p)
    else
      var t := ParseTurn(b, p);
      if !t.ok then t
      else
        var r := ParseTurns(b, t.p, n - 1);
        Parsed(r.ok, t.items + r.items, r.p)
  }

  datatype Decoded = Decoded(ok: bool, path: BattlePath)

  /** A path decodes only when the last turn ends exactly where the buffer does. */
  function DecodePath(b: seq<u8>): (d: Decoded)
    ensures 8 * |d.path| <= |b|
  {
    if |b| < 4 then Decoded(false, [])
    else
      var r := ParseTurns(b, 4, Get32(b, 0));
      Decoded(r.ok && r.p == |b|, r.items)
  }

  method ReadActions(b: seq<u8>, start: nat, n: nat) returns (ok: bool, spec: TurnPlanSpec, cur: nat)
    requires start <= |b|
    ensures ok == ParseActions(b, start, n).ok
    ensures ok ==> spec == ParseActions(b, start, n).items && cur == ParseActions(b, start, n).p
  {
    cur, spec := start, [];
    ghost var whole := ParseActions(b, start, n);
    for i := 0 to n
      invariant cur <= |b|
      invariant var r := ParseActions(b, cur, n - i); whole == Parsed(r.ok, spec + r.items, r.p)
    {
      if |b| - cur < ACTION_SIZE { return false, spec, cur; }
      ghost var r := ParseActions(b, cur + ACTION_SIZE, n - i - 1);
      assert spec + ([GetAction(b, cur)] + r.items) == (spec + [GetAction(b, cur)]) + r.items;
      spec := spec + [GetAction(b, cur)];
      cur := cur + ACTION_SIZE;
    }
    assert spec + [] == spec;
    return true, spec, cur;
  }

  method DecodeTurnPlans(b: seq<u8>) returns (ok: bool, out: BattlePath)
    ensures Decoded(ok, out) == DecodePath(b)
  {
    hide Get32, ParseTurn, ParseTurns;
    out := [];
    if |b| < 4 { return false, out; }
    var count: nat := Get32(b, 0);
    var cur: nat := 4;
    ghost var whole := ParseTurns(b, 4, count);
    NothingBefore(whole);
    for t := 0 to count
      invariant cur <= |b| && whole == Behind(out, ParseTurns(b, cur, count - t))
    {
      NextTurn(b, cur, count - t, out);
      var done, plan, next := ReadTurn(b, cur);
      if !done { return false, out; }
      out := out + [plan];
      cur := next;
    }
    NoTurns(b, cur, out);
    return cur == |b|, out;
  }

  /** A parse that goes on behind what was read already. */
  function Behind(out: BattlePath, r: Parsed<TurnPlan>): Parsed<TurnPlan> { Parsed(r.ok, out + r.items, r.p) }

  lemma NothingBefore(r: Parsed<TurnPlan>)
    ensures Behind([], r) == r
  {
  }

  lemma NoTurns(b: seq<u8>, p: nat, out: BattlePath)
    requires p <= |b|
    ensures Behind(out, ParseTurns(b, p, 0)) == Parsed(true, out, p)
  {
  }

  lemma NextTurn(b: seq<u8>, p: nat, n: nat, out: BattlePath)
    requires p <= |b| && n > 0
    ensures var t := ParseTurn(b, p);
            Behind(out, ParseTurns(b, p, n)) == if t.ok then Behind(out + t.items, ParseTurns(b, t.p, n - 1)) else Parsed(false, out, t.p)
  {
    hide ParseTurn;
    var t := ParseTurn(b, p);
    if t.ok { assert out + (t.items + ParseTurns(b, t.p, n - 1).items) == (out + t.items) + ParseTurns(b, t.p, n - 1).items; }
  }

  /** One turn: its fake attacks, the number of its actions, and the actions. */
  method ReadTurn(b: seq<u8>, start: nat) returns (ok: bool, plan: TurnPlan, cur: nat)
    requires start <= |b|
    ensures ok == ParseTurn(b, start).ok
    ensures ok ==> ParseTurn(b, start).items == [plan] && cur == ParseTurn(b, start).p <= |b|
  {
    hide Get32;
    plan, cur := TurnPlan(0, []), start;
    if |b| - cur < 4 { return false, plan, cur; }
    var wiggles := Get32(b, cur);
    cur := cur + 4;
    if |b| - cur < 4 { return false, plan, cur; }
    var actionCount := Get32(b, cur);
    cur := cur + 4;
    var done, spec, next := ReadActions(b, cur, actionCount);
    if !done { return false, plan, cur; }
    return true, TurnPlan(wiggles, spec), next;
  }

  // ---------------------------------------------------------------- round trip

  /** What the wire keeps of an action: no item, and a prelude flag of 0 or 1. */
  function WireAction(a: ActionPlan): ActionPlan {
    a.(isPrelude := if a.isPrelude != 0 then 1 else 0, itemId := 0xFFFF)
  }

  function WireSpec(s: TurnPlanSpec): (r: TurnPlanSpec)
    ensures |r| == |s|
  {
    seq(|s|, i requires 0 <= i < |s| => WireAction(s[i]))
  }

  function WirePath(path: BattlePath): (r: BattlePath)
    ensures |r| == |path|
  {
    seq(|path|, i requires 0 <= i < |path| => path[i].(spec := WireSpec(path[i].spec)))
  }

  /** Every count fits its 32-bit field. */
  ghost predicate Countable(path: BattlePath) {
    |path| < 0x1_0000_0000 && forall t | t in path :: |t.spec| < 0x1_0000_0000
  }

  lemma MaskRoundTrip(m: bv32)
    ensures (m as int) as bv32 == m
  {
  }

  lemma GetActionBytes(pre: seq<u8>, a: ActionPlan, post: seq<u8>)
    ensures GetAction(pre + ActionBytes(a) + post, |pre|) == WireAction(a)
  {
    var head, mask := [a.actorSlot, if a.isPrelude != 0 then 1 else 0, a.macro, 0], Le32(a.targetMask as int);
    var b := pre + ActionBytes(a) + post;
    assert b == (pre + head) + mask + post;
    Get32Le32(pre + head, a.targetMask as int, post);
    MaskRoundTrip(a.targetMask);
    assert b[|pre|] == head[0] && b[|pre| + 1] == head[1] && b[|pre| + 2] == head[2];
  }

  lemma {:induction false} ActionsRoundTrip(pre: seq<u8>, s: TurnPlanSpec, post: seq<u8>)
    ensures ParseActions(pre + ActionsBytes(s) + post, |pre|, |s|)
         == Parsed(true, WireSpec(s), |pre| + |ActionsBytes(s)|)
    decreases |s|
  {
    hide ActionBytes, GetAction, WireAction;
    if s != [] {
      var rest := ActionsBytes(s[1..]);
      var b := pre + ActionsBytes(s) + post;
      assert b == pre + ActionBytes(s[0]) + (rest + post) == (pre + ActionBytes(s[0])) + rest + post;
      GetActionBytes(pre, s[0], rest + post);
      ActionsRoundTrip(pre + ActionBytes(s[0]), s[1..], post);
      assert WireSpec(s) == [WireAction(s[0])] + WireSpec(s[1..]);
    }
  }

  lemma TurnRoundTrip(pre: seq<u8>, t: TurnPlan, post: seq<u8>)
    requires |t.spec| < 0x1_0000_0000
    ensures ParseTurn(pre + TurnBytes(t) + post, |pre|)
         == Parsed(true, [t.(spec := WireSpec(t.spec))], |pre| + |TurnBytes(t)|)
  {
    hide Le32, Get32, ParseActions, ActionsBytes, WireSpec;
    var x, y, z := Le32(t.fakeAttackCount), Le32(|t.spec|), ActionsBytes(t.spec);
    var b := pre + TurnBytes(t) + post;
    assert b == pre + x + (y + z + post);
    Get32Le32(pre, t.fakeAttackCount, y + z + post);
    assert b == (pre + x) + y + (z + post);
    Get32Le32(pre + x, |t.spec|, z + post);
    assert b == (pre + x + y) + z + post;
    ActionsRoundTrip(pre + x + y, t.spec, post);
  }

  lemma {:induction false} TurnsRoundTrip(pre: seq<u8>, path: BattlePath, post: seq<u8>)
    requires forall t | t in path :: |t.spec| < 0x1_0000_0000
    ensures ParseTurns(pre + TurnsBytes(path) + post, |pre|, |path|)
         == Parsed(true, WirePath(path), |pre| + |TurnsBytes(path)|)
    decreases |path|
  {
    hide TurnBytes, ParseTurn, WireSpec;
    if path != [] {
      var rest := TurnsBytes(path[1..]);
      var b := pre + TurnsBytes(path) + post;
      assert b == pre + TurnBytes(path[0]) + (rest + post) == (pre + TurnBytes(path[0])) + rest + post;
      TurnRoundTrip(pre, path[0], rest + post);
      TurnsRoundTrip(pre + TurnBytes(path[0]), path[1..], post);
      assert WirePath(path) == [path[0].(spec := WireSpec(path[0].spec))] + WirePath(path[1..]);
    }
  }

  /** Main result: decoding an encoded path recovers it up to what the wire does not carry. */
  lemma PathRoundTrip(path: BattlePath)
    requires Countable(path)
    ensures DecodePath(PathBytes(path)) == Decoded(true, WirePath(path))
  {
    hide Le32, Get32, ParseTurns, TurnsBytes, WirePath;
    var b := PathBytes(path);
    assert b == [] + Le32(|path|) + TurnsBytes(path);
    Get32Le32([], |path|, TurnsBytes(path));
    assert b == Le32(|path|) + TurnsBytes(path) + [];
    TurnsRoundTrip(Le32(|path|), path, []);
  }

  // ---------------------------------------------------------------- self-delimitation

  lemma GetActionLocal(b: seq<u8>, x: seq<u8>, p: nat)
    requires p + ACTION_SIZE <= |b|
    ensures GetAction(b + x, p) == GetAction(b, p)
  {
    Get32Local(b + x, p + 4, b, p + 4);
  }

  lemma {:induction false} ActionsExtend(b: seq<u8>, x: seq<u8>, p: nat, n: nat)
    requires p <= |b| && ParseActions(b, p, n).ok
    ensures ParseActions(b + x, p, n) == ParseActions(b, p, n)
    decreases n
  {
    hide GetAction;
    if n != 0 {
      GetActionLocal(b, x, p);
      ActionsExtend(b, x, p + ACTION_SIZE, n - 1);
    }
  }

  lemma {:induction false} TurnsExtend(b: seq<u8>, x: seq<u8>, p: nat, n: nat)
    requires p <= |b| && ParseTurns(b, p, n).ok
    ensures ParseTurns(b + x, p, n) == ParseTurns(b, p, n)
    decreases n
  {
    hide Get32;
    if n != 0 {
      Get32Local(b + x, p, b, p);
      Get32Local(b + x, p + 4, b, p + 4);
      ActionsExtend(b, x, p + 8, Get32(b, p + 4));
      TurnsExtend(b, x, ParseTurn(b, p).p, n - 1);
    }
  }

  /** No strict extension, and so no strict prefix, of a decodable buffer decodes. */
  lemma DecodableIsPrefixFree(b: seq<u8>, x: seq<u8>)
    requires DecodePath(b).ok && x != []
    ensures !DecodePath(b + x).ok
  {
    hide Get32;
    Get32Local(b + x, 0, b, 0);
    TurnsExtend(b, x, 4, Get32(b, 0));
  }

  /** Both directions for encoded paths: neither a cut nor an extension of one decodes. */
  lemma EncodedPathIsExact(path: BattlePath, b: seq<u8>)
    requires Countable(path)
    requires b < PathBytes(path) || PathBytes(path) < b
    ensures !DecodePath(b).ok
  {
    hide PathBytes, DecodePath;
    var e := PathBytes(path);
    PathRoundTrip(path);
    if e < b {
      assert b == e + b[|e|..];
      DecodableIsPrefixFree(e, b[|e|..]);
    } else if DecodePath(b).ok {
      assert e == b + e[|b|..];
      DecodableIsPrefixFree(b, e[|b|..]);
    }
  }
}
