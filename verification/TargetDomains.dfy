/** Target masks: splitting a bit mask into its single bits, and the mask of the enemies present. */
module TargetDomains {
  import opened ActionTypes

  predicate SingleBit(m: bv32) { m != 0 && m & (m - 1) == 0 }

  function And(a: bv32, b: bv32): bv32 { a & b }

  function Or(a: bv32, b: bv32): bv32 { a | b }

  predicate Has(mask: bv32, m: bv32) { And(m, mask) != 0 }

  predicate Below(a: bv32, b: bv32) { a < b }

  function LowestBit(mask: bv32): bv32 { mask & (0 - mask) }

  function WithoutLowest(mask: bv32): bv32 { mask ^ LowestBit(mask) }

  lemma LowestIsSingle(mask: bv32)
    requires mask != 0
    ensures SingleBit(LowestBit(mask)) && Has(mask, LowestBit(mask))
  {
  }

  lemma LowestIsRemoved(mask: bv32)
    requires mask != 0
    ensures WithoutLowest(mask) < mask
  {
  }

  lemma BitIsLowestOrLater(mask: bv32, m: bv32)
    requires mask != 0 && SingleBit(m) && Has(mask, m)
    ensures m == LowestBit(mask) || Has(WithoutLowest(mask), m)
  {
  }

  lemma LaterBit(mask: bv32, m: bv32)
    requires mask != 0 && SingleBit(m) && Has(WithoutLowest(mask), m)
    ensures Has(mask, m) && Below(LowestBit(mask), m)
  {
  }

  lemma NoBits(m: bv32)
    ensures !Has(0, m)
  {
  }

  /** The bits of a mask, lowest first, as the loop peels them off. */
  function MaskBits(mask: bv32): seq<bv32>
    decreases mask
  {
    if mask == 0 then []
    else
      LowestIsRemoved(mask);
      [LowestBit(mask)] + MaskBits(WithoutLowest(mask))
  }

  lemma Peel(mask: bv32)
    ensures MaskBits(mask) == if mask == 0 then [] else [LowestBit(mask)] + MaskBits(WithoutLowest(mask))
    ensures mask != 0 ==> WithoutLowest(mask) < mask
  {
    hide LowestBit, WithoutLowest;
    if mask != 0 { LowestIsRemoved(mask); }
  }

  method MasksFromBits(bits: bv32) returns (out: seq<bv32>)
    ensures out == MaskBits(bits)
  {
    hide LowestBit, WithoutLowest, MaskBits;
    out := [];
    var mask := bits;
    while mask != 0
      invariant out + MaskBits(mask) == MaskBits(bits)
      decreases |MaskBits(mask)|
    {
      Peel(mask);
      var lsb, rest := LowestBit(mask), WithoutLowest(mask);
      assert out + ([lsb] + MaskBits(rest)) == (out + [lsb]) + MaskBits(rest);
      out := out + [lsb];
      mask := rest;
    }
    Peel(mask);
  }

  ghost predicate Ascending(s: seq<bv32>) {
    forall i, j | 0 <= i < j < |s| :: Below(s[i], s[j])
  }

  /** Exactly the single-bit masks contained in the mask, in ascending order, so each once. */
  lemma {:induction false} MaskBitsExact(mask: bv32)
    ensures forall m :: m in MaskBits(mask) <==> SingleBit(m) && Has(mask, m)
    ensures Ascending(MaskBits(mask))
    decreases mask
  {
    hide SingleBit, LowestBit, WithoutLowest, Has, Below;
    if mask != 0 {
      var low, rest := LowestBit(mask), MaskBits(WithoutLowest(mask));
      LowestIsSingle(mask);
      LowestIsRemoved(mask);
      MaskBitsExact(WithoutLowest(mask));
      forall m ensures m in MaskBits(mask) <==> SingleBit(m) && Has(mask, m) {
        assert m in MaskBits(mask) <==> m == low || m in rest;
        if SingleBit(m) && Has(mask, m) { BitIsLowestOrLater(mask, m); }
        if SingleBit(m) && Has(WithoutLowest(mask), m) { LaterBit(mask, m); }
      }
      forall j | 0 <= j < |rest| ensures Below(low, rest[j]) {
        assert rest[j] in rest;
        LaterBit(mask, rest[j]);
      }
    } else {
      forall m: bv32 ensures !Has(mask, m) { NoBits(m); }
    }
  }

  // ---------------------------------------------------------------- any enemy

  function Bit(i: nat): (b: bv32)
    requires i < 32
  {
    1 << i
  }

  lemma BitIsSingle(i: nat)
    requires i < 32
    ensures SingleBit(Bit(i))
  {
  }

  lemma Overlap(a: bv32, b: bv32)
    requires SingleBit(a) && SingleBit(b)
    ensures Has(b, a) <==> a == b
  {
  }

  lemma HasOr(a: bv32, b: bv32, c: bv32)
    ensures Has(Or(b, c), a) <==> Has(b, a) || Has(c, a)
  {
    hide And, Or;
    AndOverOr(a, b, c);
    OrIsZero(And(a, b), And(a, c));
  }

  lemma AndOverOr(a: bv32, b: bv32, c: bv32)
    ensures And(a, Or(b, c)) == Or(And(a, b), And(a, c))
  {
  }

  lemma OrIsZero(x: bv32, y: bv32)
    ensures Or(x, y) == 0 <==> x == 0 && y == 0
  {
  }

  function EnemyMaskFrom(bc: BattleContext, i: nat): bv32
    requires bc.Valid() && i <= 12
    decreases 12 - i
  {
    if i == 12 then 0
    else if bc.slots[i].present == 1 then Or(Bit(i), EnemyMaskFrom(bc, i + 1))
    else EnemyMaskFrom(bc, i + 1)
  }

  function AnyEnemyDomain(bc: BattleContext): seq<bv32>
    requires bc.Valid()
  {
    MaskBits(EnemyMaskFrom(bc, 4))
  }

  lemma OrZero(a: bv32)
    ensures Or(0, a) == a && Or(a, 0) == a
  {
  }

  lemma OrAssoc(a: bv32, b: bv32, c: bv32)
    ensures Or(Or(a, b), c) == Or(a, Or(b, c))
  {
  }

  method DomainAnyEnemy(bc: BattleContext) returns (out: seq<bv32>)
    requires bc.Valid()
    ensures out == AnyEnemyDomain(bc)
  {
    hide Bit, Or;
    var mask: bv32 := 0;
    OrZero(EnemyMaskFrom(bc, 4));
    for i := 4 to 12
      invariant Or(mask, EnemyMaskFrom(bc, i)) == EnemyMaskFrom(bc, 4)
    {
      if bc.slots[i].present == 1 {
        OrAssoc(mask, Bit(i), EnemyMaskFrom(bc, i + 1));
        mask := Or(mask, Bit(i));
      }
    }
    OrZero(mask);
    out := MasksFromBits(mask);
  }

  lemma {:induction false} EnemyMaskBits(bc: BattleContext, i: nat, m: bv32)
    requires bc.Valid() && i <= 12 && SingleBit(m)
    ensures Has(EnemyMaskFrom(bc, i), m) <==> exists j :: i <= j < 12 && bc.slots[j].present == 1 && m == Bit(j)
    decreases 12 - i
  {
    hide Bit, Or, Has, SingleBit;
    if i == 12 {
      NoBits(m);
    } else {
      EnemyMaskBits(bc, i + 1, m);
      BitIsSingle(i);
      Overlap(m, Bit(i));
      HasOr(m, Bit(i), EnemyMaskFrom(bc, i + 1));
    }
  }

  /** "Any enemy" offers exactly one mask per present enemy slot. */
  lemma AnyEnemyExact(bc: BattleContext)
    requires bc.Valid()
    ensures forall m :: m in AnyEnemyDomain(bc) <==> exists j :: 4 <= j < 12 && bc.slots[j].present == 1 && m == Bit(j)
  {
    hide Bit, Has, SingleBit, MaskBits;
    MaskBitsExact(EnemyMaskFrom(bc, 4));
    forall m ensures m in AnyEnemyDomain(bc) <==> exists j :: 4 <= j < 12 && bc.slots[j].present == 1 && m == Bit(j) {
      if SingleBit(m) { EnemyMaskBits(bc, 4, m); }
      forall j | 4 <= j < 12 ensures SingleBit(Bit(j)) { BitIsSingle(j); }
    }
  }
}
