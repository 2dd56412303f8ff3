/** Scalar types of vllm/scalar_type.py, and the packing of a type into an integer id with a
    registry. */
module ScalarType {
  import opened Arith

  // ---------------------------------------------------------------------------
  // Powers of two and bitwise or
  // ---------------------------------------------------------------------------

  function Pow2(n: nat): (p: nat)
    ensures p >= 1
  {
    if n == 0 then 1 else 2 * Pow2(n - 1)
  }

  lemma TwiceFactor(p: int, q: int)
    ensures p * (2 * q) == 2 * (p * q)
  {
  }

  lemma {:induction false} Pow2Sum(a: nat, b: nat)
    ensures Pow2(a + b) == Pow2(a) * Pow2(b)
  {
    if b > 0 {
      Pow2Sum(a, b - 1);
      TwiceFactor(Pow2(a), Pow2(b - 1));
    }
  }

  lemma {:induction false} Pow2Mono(a: nat, b: nat)
    requires a <= b
    ensures Pow2(a) <= Pow2(b)
  {
    if a < b {
      Pow2Mono(a, b - 1);
    }
  }

  /** Bitwise or of two naturals. */
  function Or(a: nat, b: nat): nat
    decreases a + b
  {
    if a == 0 then b
    else if b == 0 then a
    else 2 * Or(a / 2, b / 2) + if a % 2 == 1 || b % 2 == 1 then 1 else 0
  }

  /** Or with a value shifted past all bits of `a` is addition. */
  lemma {:induction false} OrOfShifted(a: nat, b: nat, k: nat)
    requires a < Pow2(k)
    ensures Or(a, b * Pow2(k)) == a + b * Pow2(k)
  {
    if k > 0 && a > 0 && b > 0 {
      var c := b * Pow2(k - 1);
      assert b * Pow2(k) == 2 * c;
      OrOfShifted(a / 2, b, k - 1);
      assert c > 0 by { MulMono(1, b, Pow2(k - 1)); }
    }
  }

  // ---------------------------------------------------------------------------
  // The types
  // ---------------------------------------------------------------------------

  datatype NanRepr = NoNan | Ieee754 | ExtdRangeMaxMin {
    function Value(): nat { match this case NoNan => 0 case Ieee754 => 1 case ExtdRangeMaxMin => 2 }
  }

  datatype Type = Type(exponent: int, mantissa: int, signed: bool, bias: int, finiteOnly: bool, nan: NanRepr)

  function Bit(b: bool): nat { if b then 1 else 0 }

  // ---------------------------------------------------------------------------
  // Ids
  // ---------------------------------------------------------------------------

  /** `member & ((1 << width) - 1)`, also for a negative member. */
  function Mask(member: int, width: nat): (r: nat)
    ensures r < Pow2(width)
  {
    member % Pow2(width)
  }

  datatype Packing = Packing(val: nat, offset: nat)

  /** Put the low bits of a field above those packed so far. */
  function OrAndAdvance(p: Packing, member: int, width: nat): Packing {
    Packing(Or(p.val, Mask(member, width) * Pow2(p.offset)), p.offset + width)
  }

  lemma PackBound(v: nat, m: nat, r: nat, w: nat)
    requires v < r && m < w
    ensures v + m * r < w * r
  {
    MulMono(m + 1, w, r);
  }

  /** The fields go up one after another, so the id is a mixed-radix number. */
  lemma PackStep(p: Packing, member: int, width: nat)
    requires p.val < Pow2(p.offset)
    ensures var q := OrAndAdvance(p, member, width);
            q.val == p.val + Mask(member, width) * Pow2(p.offset) && q.val < Pow2(q.offset)
  {
    OrOfShifted(p.val, Mask(member, width), p.offset);
    assert Pow2(p.offset + width) == Pow2(width) * Pow2(p.offset) by { Pow2Sum(p.offset, width); }
    PackBound(p.val, Mask(member, width), Pow2(p.offset), Pow2(width));
  }

  /** One packing step can be undone: equal results come from equal parts. */
  lemma UnpackStep(p: Packing, q: Packing, m: int, n: int, width: nat)
    requires p.offset == q.offset && p.val < Pow2(p.offset) && q.val < Pow2(q.offset)
    ensures OrAndAdvance(p, m, width) == OrAndAdvance(q, n, width) <==> p == q && Mask(m, width) == Mask(n, width)
  {
    PackStep(p, m, width);
    PackStep(q, n, width);
    if OrAndAdvance(p, m, width) == OrAndAdvance(q, n, width) {
      var r := Pow2(p.offset);
      DivModUnique(OrAndAdvance(p, m, width).val, r, Mask(m, width), p.val);
      DivModUnique(OrAndAdvance(q, n, width).val, r, Mask(n, width), q.val);
    }
  }

  datatype Field = Field(member: int, width: nat)

  /** The first `n` fields, packed one after another. */
  function Pack(fs: seq<Field>, n: nat): Packing
    requires n <= |fs|
  {
    if n == 0 then Packing(0, 0) else OrAndAdvance(Pack(fs, n - 1), fs[n - 1].member, fs[n - 1].width)
  }

  function Widths(fs: seq<Field>, n: nat): nat
    requires n <= |fs|
  {
    if n == 0 then 0 else Widths(fs, n - 1) + fs[n - 1].width
  }

  lemma {:induction false} PackFits(fs: seq<Field>, n: nat)
    requires n <= |fs|
    ensures Pack(fs, n).offset == Widths(fs, n) && Pack(fs, n).val < Pow2(Widths(fs, n))
  {
    if n > 0 {
      PackFits(fs, n - 1);
      PackStep(Pack(fs, n - 1), fs[n - 1].member, fs[n - 1].width);
    }
  }

  predicate SameBits(f: Field, g: Field) { f.width == g.width && Mask(f.member, f.width) == Mask(g.member, g.width) }

  /** Packing fields of the same widths is injective in the packed bits. */
  lemma {:induction false} PackEqualIff(fs: seq<Field>, gs: seq<Field>, n: nat)
    requires n <= |fs| && n <= |gs| && forall i :: 0 <= i < n ==> fs[i].width == gs[i].width
    ensures Pack(fs, n) == Pack(gs, n) <==> forall i :: 0 <= i < n ==> SameBits(fs[i], gs[i])
    ensures Pack(fs, n).offset == Pack(gs, n).offset
  {
    if n > 0 {
      PackEqualIff(fs, gs, n - 1);
      PackFits(fs, n - 1);
      PackFits(gs, n - 1);
      UnpackStep(Pack(fs, n - 1), Pack(gs, n - 1), fs[n - 1].member, gs[n - 1].member, fs[n - 1].width);
    }
  }

  function Fields(t: Type): seq<Field> {
    [Field(t.exponent, 8), Field(t.mantissa, 8), Field(Bit(t.signed), 1), Field(t.bias, 32),
     Field(Bit(t.finiteOnly), 1), Field(t.nan.Value(), 8)]
  }

  function Id(t: Type): nat { Pack(Fields(t), 6).val }

  lemma TotalWidth(t: Type)
    ensures Widths(Fields(t), 6) == 58
  {
    var fs := Fields(t);
    assert fs[0].width == 8 && fs[1].width == 8 && fs[2].width == 1 && fs[3].width == 32 && fs[4].width == 1 && fs[5].width == 8;
    assert Widths(fs, 1) == 8;
    assert Widths(fs, 2) == 16;
    assert Widths(fs, 3) == 17;
    assert Widths(fs, 4) == 49;
    assert Widths(fs, 5) == 50;
  }

  lemma {:induction false} PackIsSum(fs: seq<Field>, n: nat)
    requires n < |fs|
    ensures Pack(fs, n + 1).val == Pack(fs, n).val + Mask(fs[n].member, fs[n].width) * Pow2(Widths(fs, n))
  {
    PackFits(fs, n);
    PackStep(Pack(fs, n), fs[n].member, fs[n].width);
  }

  lemma HighPowers()
    ensures Pow2(8) == 0x100 && Pow2(16) == 0x1_0000 && Pow2(17) == 0x2_0000
    ensures Pow2(49) == 0x2_0000_0000_0000 && Pow2(50) == 0x4_0000_0000_0000
  {
    WordSize();
    assert Pow2(8) == 0x100;
    Pow2Sum(8, 8);
    Pow2Sum(32, 16);
  }

  lemma PartWidths(t: Type)
    ensures var fs := Fields(t);
            Widths(fs, 1) == 8 && Widths(fs, 2) == 16 && Widths(fs, 3) == 17 && Widths(fs, 4) == 49 && Widths(fs, 5) == 50
  {
    var fs := Fields(t);
    assert fs[0].width == 8 && fs[1].width == 8 && fs[2].width == 1 && fs[3].width == 32 && fs[4].width == 1;
    assert Widths(fs, 1) == 8;
    assert Widths(fs, 2) == 16;
    assert Widths(fs, 3) == 17;
    assert Widths(fs, 4) == 49;
  }

  /** The layout of the id: exponent in bits 0 to 7, mantissa in 8 to 15, sign in 16, bias in 17 to
      48, finite-only in 49, and the kind of NaN from 50 on. */
  lemma IdIs(t: Type)
    ensures Id(t) == t.exponent % 0x100 + t.mantissa % 0x100 * 0x100 + (if t.signed then 0x1_0000 else 0)
                     + t.bias % 0x1_0000_0000 * 0x2_0000 + (if t.finiteOnly then 0x2_0000_0000_0000 else 0)
                     + (match t.nan case NoNan => 0 case Ieee754 => 1 case ExtdRangeMaxMin => 2) * 0x4_0000_0000_0000
  {
    var fs := Fields(t);
    HighPowers();
    WordSize();
    PartWidths(t);
    FieldMasks(t);
    LowFields(t);
    PackIsSum(fs, 3);
    PackIsSum(fs, 4);
    PackIsSum(fs, 5);
  }

  lemma LowFields(t: Type)
    ensures Pack(Fields(t), 3).val == t.exponent % 0x100 + t.mantissa % 0x100 * 0x100 + (if t.signed then 0x1_0000 else 0)
  {
    var fs := Fields(t);
    HighPowers();
    PartWidths(t);
    FieldMasks(t);
    PackIsSum(fs, 0);
    PackIsSum(fs, 1);
    PackIsSum(fs, 2);
  }

  lemma FieldMasks(t: Type)
    ensures var fs := Fields(t);
            && Mask(fs[0].member, fs[0].width) == t.exponent % 0x100 && Mask(fs[1].member, fs[1].width) == t.mantissa % 0x100
            && Mask(fs[2].member, fs[2].width) == (if t.signed then 1 else 0) && Mask(fs[3].member, fs[3].width) == t.bias % 0x1_0000_0000
            && Mask(fs[4].member, fs[4].width) == (if t.finiteOnly then 1 else 0)
            && Mask(fs[5].member, fs[5].width) == match t.nan case NoNan => 0 case Ieee754 => 1 case ExtdRangeMaxMin => 2
  {
    assert Pow2(8) == 0x100 && Pow2(1) == 2;
    WordSize();
  }

  /** Every id is below 2^58. */
  lemma IdBound(t: Type)
    ensures Id(t) < Pow2(58)
  {
    PackFits(Fields(t), 6);
    TotalWidth(t);
  }

  /** The fields as far as the id can tell them apart. */
  predicate Congruent(t: Type, u: Type) {
    && Mask(t.exponent, 8) == Mask(u.exponent, 8) && Mask(t.mantissa, 8) == Mask(u.mantissa, 8)
    && t.signed == u.signed && Mask(t.bias, 32) == Mask(u.bias, 32)
    && t.finiteOnly == u.finiteOnly && t.nan == u.nan
  }

  /** Two types have the same id exactly if they agree in the bits that are packed. */
  lemma IdEqualIff(t: Type, u: Type)
    ensures Id(t) == Id(u) <==> Congruent(t, u)
  {
    var fs, gs := Fields(t), Fields(u);
    PackEqualIff(fs, gs, 6);
    assert Id(t) == Id(u) <==> Pack(fs, 6) == Pack(gs, 6);
    SmallMasks(Bit(t.signed), Bit(u.signed));
    SmallMasks(Bit(t.finiteOnly), Bit(u.finiteOnly));
    NanMasks(t.nan, u.nan);
    SixFields(fs, gs);
  }

  lemma SixFields(fs: seq<Field>, gs: seq<Field>)
    requires |fs| == |gs| == 6
    ensures (forall i :: 0 <= i < 6 ==> SameBits(fs[i], gs[i])) <==>
              && SameBits(fs[0], gs[0]) && SameBits(fs[1], gs[1]) && SameBits(fs[2], gs[2])
              && SameBits(fs[3], gs[3]) && SameBits(fs[4], gs[4]) && SameBits(fs[5], gs[5])
  {
  }

  lemma SmallMasks(a: nat, b: nat)
    requires a <= 1 && b <= 1
    ensures Mask(a, 1) == Mask(b, 1) <==> a == b
  {
    assert Pow2(1) == 2;
  }

  lemma NanMasks(m: NanRepr, n: NanRepr)
    ensures Mask(m.Value(), 8) == Mask(n.Value(), 8) <==> m == n
  {
    assert Pow2(8) == 256;
  }

  /** 8-bit exponent and mantissa, 32-bit signed bias. */
  predicate InRange(t: Type) {
    0 <= t.exponent < 256 && 0 <= t.mantissa < 256 && -0x8000_0000 <= t.bias < 0x8000_0000
  }

  /** In range, the id is injective. */
  lemma IdInjective(t: Type, u: Type)
    requires InRange(t) && InRange(u) && Id(t) == Id(u)
    ensures t == u
  {
    IdEqualIff(t, u);
    ByteMask(t.exponent);
    ByteMask(u.exponent);
    ByteMask(t.mantissa);
    ByteMask(u.mantissa);
    BiasWindow(t.bias, u.bias);
  }

  lemma ByteMask(x: int)
    requires 0 <= x < 256
    ensures Mask(x, 8) == x
  {
    assert Pow2(8) == 256;
  }

  lemma WordSize()
    ensures Pow2(32) == 0x1_0000_0000
  {
    assert Pow2(8) == 0x100;
    Pow2Sum(8, 8);
    Pow2Sum(16, 16);
  }

  lemma BiasWindow(a: int, b: int)
    requires -0x8000_0000 <= a < 0x8000_0000 && -0x8000_0000 <= b < 0x8000_0000 && Mask(a, 32) == Mask(b, 32)
    ensures a == b
  {
    WordSize();
    SameResidueInWindow(a, b, -0x8000_0000, 0x1_0000_0000);
  }

  // ---------------------------------------------------------------------------
  // The registry
  // ---------------------------------------------------------------------------

  type Registry = map<nat, Type>

  datatype Lookup = Found(t: Type) | ValueError

  function FromId(r: Registry, id: nat): Lookup {
    if id in r then Found(r[id]) else ValueError
  }

  /** The registry after constructing types one after another. */
  function Registered(ts: seq<Type>): Registry {
    if ts == [] then map[] else Registered(ts[..|ts| - 1])[Id(ts[|ts| - 1]) := ts[|ts| - 1]]
  }

  /** The id with its registry write, as the code computes it. */
  method ComputeId(t: Type, r: Registry) returns (val: nat, r': Registry)
    ensures val == Id(t) && r' == r[Id(t) := t]
  {
    var fs := Fields(t);
    var p := Packing(0, 0);
    for i := 0 to |fs|
      invariant p == Pack(fs, i)
    {
      p := OrAndAdvance(p, fs[i].member, fs[i].width);
    }
    val := p.val;
    r' := r[val := t];
  }

  /** Every constructed type is found again under its id, provided that no later type with a
      different value shares it; in range, none does. */
  lemma {:induction false} RoundTrip(ts: seq<Type>, k: nat)
    requires k < |ts| && forall i :: 0 <= i < |ts| ==> InRange(ts[i])
    ensures FromId(Registered(ts), Id(ts[k])) == Found(ts[k])
  {
    var n := |ts| - 1;
    if k < n {
      RoundTrip(ts[..n], k);
      if Id(ts[k]) == Id(ts[n]) {
        IdInjective(ts[k], ts[n]);
      }
    }
  }

  /** An id that no constructed type has is not found. */
  lemma {:induction false} UnknownId(ts: seq<Type>, id: nat)
    requires forall i :: 0 <= i < |ts| ==> Id(ts[i]) != id
    ensures FromId(Registered(ts), id) == ValueError
  {
    if ts != [] {
      UnknownId(ts[..|ts| - 1], id);
    }
  }

  /** Out of range, a type can take over the id of another: `Registered([t, u])` finds `u`. */
  lemma OverwrittenIff(t: Type, u: Type)
    requires t != u
    ensures FromId(Registered([t, u]), Id(t)) == Found(u) <==> Congruent(t, u)
  {
    IdEqualIff(t, u);
    assert [t, u][..1] == [t] && [t][..0] == [];
    assert Registered([t]) == map[Id(t) := t];
    assert Registered([t, u]) == map[Id(t) := t][Id(u) := u];
  }
}
