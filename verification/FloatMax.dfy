/** The largest finite value of a floating-point type (vllm/scalar_type.py): the code builds the
    bit pattern of a binary64 number, as section 3.4 of IEEE 754-2019 lays it out, and reads it
    back.  Values are exact reals. */
module FloatMax {
  import opened Arith
  import opened ScalarType

  // ---------------------------------------------------------------------------
  // Real powers of two
  // ---------------------------------------------------------------------------

  function RPow2(k: int): (r: real)
    ensures r > 0.0
    decreases if k >= 0 then k else -k
  {
    if k == 0 then 1.0 else if k > 0 then 2.0 * RPow2(k - 1) else RPow2(k + 1) / 2.0
  }

  lemma RPow2Next(k: int)
    ensures RPow2(k + 1) == 2.0 * RPow2(k)
  {
  }

  lemma {:induction false} TimesProduct(a: nat, b: nat, u: real)
    ensures Times(a * b, u) == Times(a, Times(b, u))
  {
    if a > 0 {
      TimesProduct(a - 1, b, u);
      assert a * b == (a - 1) * b + b;
      MulMono(0, a - 1, b);
      SumOfTimes((a - 1) * b, b, u);
    }
  }

  lemma {:induction false} TimesMono(a: nat, b: nat, u: real)
    requires a <= b && u > 0.0
    ensures Times(a, u) <= Times(b, u) && (a < b ==> Times(a, u) < Times(b, u))
  {
    if a < b {
      TimesMono(a, b - 1, u);
    }
  }

  lemma {:induction false} RPow2Shift(n: nat, k: int)
    ensures RPow2(n + k) == Times(Pow2(n), RPow2(k))
  {
    if n > 0 {
      RPow2Shift(n - 1, k);
      RPow2Next(n - 1 + k);
      SumOfTimes(Pow2(n - 1), Pow2(n - 1), RPow2(k));
    }
  }

  // ---------------------------------------------------------------------------
  // Values of a format
  // ---------------------------------------------------------------------------

  /** A format: exponent and mantissa bits, with the standard exponent bias. */
  datatype Format = Format(e: nat, m: nat) {
    function Bias(): int requires e >= 1 { Pow2(e - 1) - 1 }
    predicate Code(E: nat, M: nat) { E < Pow2(e) && M < Pow2(m) }

    /** The value of biased exponent `E` and mantissa field `M`: subnormal if `E` is 0. */
    function Value(E: nat, M: nat): real
      requires e >= 1
    {
      if E == 0 then Times(M, RPow2(1 - Bias() - m))
      else Times(Pow2(m) + M, RPow2(E - Bias() - m))
    }

    /** The value in units of the smallest subnormal. */
    function Units(E: nat, M: nat): nat {
      if E == 0 then M else (Pow2(m) + M) * Pow2(E - 1)
    }
  }

  lemma ValueIsUnits(f: Format, E: nat, M: nat)
    requires f.e >= 1
    ensures f.Value(E, M) == Times(f.Units(E, M), RPow2(1 - f.Bias() - f.m))
  {
    if E > 0 {
      var k := 1 - f.Bias() - f.m;
      RPow2Shift(E - 1, k);
      assert E - f.Bias() - f.m == E - 1 + k;
      TimesProduct(Pow2(f.m) + M, Pow2(E - 1), RPow2(k));
    }
  }

  /** Codes in lexicographic order have values in order. */
  lemma UnitsMono(f: Format, E: nat, M: nat, E': nat, M': nat)
    requires M < Pow2(f.m) && (E < E' || (E == E' && M <= M'))
    ensures f.Units(E, M) <= f.Units(E', M')
  {
    if E == E' && E > 0 {
      SameBinade(Pow2(f.m), M, M', Pow2(E - 1));
    } else if E < E' && E == 0 {
      SubnormalBelow(Pow2(f.m), M, M', Pow2(E' - 1));
    } else if E < E' {
      BinadeBelow(Pow2(f.m), M, M', E, E');
    }
  }

  lemma SameBinade(h: nat, M: nat, M': nat, p: nat)
    requires M <= M'
    ensures (h + M) * p <= (h + M') * p
  {
    MulMono(h + M, h + M', p);
  }

  lemma SubnormalBelow(h: nat, M: nat, M': nat, p: nat)
    requires M < h && p >= 1
    ensures M <= (h + M') * p
  {
    MulMono(1, p, h + M');
  }

  /** A normal number lies below every number of a higher exponent. */
  lemma BinadeBelow(h: nat, M: nat, M': nat, E: nat, E': nat)
    requires M < h && 1 <= E < E'
    ensures (h + M) * Pow2(E - 1) <= (h + M') * Pow2(E' - 1)
  {
    var p, q := Pow2(E - 1), Pow2(E' - 1);
    assert 2 * p <= q by { Pow2Mono(E, E' - 1); }
    MulMono(h + M, 2 * h, p);
    assert 2 * h * p == h * (2 * p);
    assert h * (2 * p) <= h * q by { MulMono(2 * p, q, h); }
    MulMono(h, h + M', q);
  }

  lemma ValueMono(f: Format, E: nat, M: nat, E': nat, M': nat)
    requires f.e >= 1 && M < Pow2(f.m) && (E < E' || (E == E' && M <= M'))
    ensures f.Value(E, M) <= f.Value(E', M')
  {
    UnitsMono(f, E, M, E', M');
    ValueIsUnits(f, E, M);
    ValueIsUnits(f, E', M');
    TimesMono(f.Units(E, M), f.Units(E', M'), RPow2(1 - f.Bias() - f.m));
  }

  // ---------------------------------------------------------------------------
  // The bit pattern
  // ---------------------------------------------------------------------------

  /** A floating-point type as the constructors make them: with exponent and mantissa bits, and
      finite values only unless it follows IEEE 754. */
  predicate IsFloat(t: Type) {
    t.exponent >= 1 && t.mantissa >= 1 && (t.nan.Ieee754? || t.finiteOnly)
  }

  function FormatOf(t: Type): Format
    requires IsFloat(t)
  {
    Format(t.exponent, t.mantissa)
  }

  /** The type fits into the wide format `w` (the code asserts it for binary64). */
  predicate Fits(t: Type, w: Format) {
    t.mantissa <= w.m && t.exponent <= w.e && (!t.nan.Ieee754? ==> t.exponent < w.e)
  }

  function MaxMantissa(t: Type): int
    requires IsFloat(t)
  {
    Pow2(t.mantissa) - 1 - if t.nan.ExtdRangeMaxMin? then 1 else 0
  }

  function MaxExponent(t: Type): int
    requires IsFloat(t)
  {
    Pow2(t.exponent) - 2 + if t.nan.Ieee754? then 0 else 1
  }

  /** The exponent field of the wide number. */
  function WideExponent(t: Type, w: Format): int
    requires IsFloat(t) && w.e >= 1
  {
    MaxExponent(t) - FormatOf(t).Bias() + w.Bias()
  }

  lemma MaxFields(t: Type)
    requires IsFloat(t)
    ensures 0 <= MaxMantissa(t) < Pow2(t.mantissa) && 0 <= MaxExponent(t) < Pow2(t.exponent)
    ensures MaxExponent(t) == 0 <==> t.nan.Ieee754? && t.exponent == 1
  {
    var p := Pow2(t.exponent - 1);
    assert Pow2(t.mantissa) == 2 * Pow2(t.mantissa - 1) && Pow2(t.exponent) == 2 * p;
    assert t.exponent >= 2 ==> p == 2 * Pow2(t.exponent - 2);
  }

  lemma WideField(t: Type, w: Format)
    requires IsFloat(t) && w.e >= 2 && Fits(t, w)
    ensures 0 < WideExponent(t, w) < Pow2(w.e) - 1
  {
    var p, q := Pow2(t.exponent - 1), Pow2(w.e - 1);
    assert Pow2(t.exponent) == 2 * p && Pow2(w.e) == 2 * q && q == 2 * Pow2(w.e - 2);
    if t.nan.Ieee754? {
      Pow2Mono(t.exponent - 1, w.e - 1);
    } else {
      Pow2Mono(t.exponent - 1, w.e - 2);
    }
  }

  /** The bit pattern of the largest value in the wide format. */
  function MaxBits(t: Type, w: Format): nat
    requires IsFloat(t) && w.e >= 2 && Fits(t, w)
  {
    MaxFields(t);
    WideField(t, w);
    Or(MaxMantissa(t) * Pow2(w.m - t.mantissa), WideExponent(t, w) * Pow2(w.m))
  }

  // ---------------------------------------------------------------------------
  // Reading it back
  // ---------------------------------------------------------------------------

  /** The fields of a bit pattern of format `w`: sign, exponent, mantissa. */
  function SignField(w: Format, raw: nat): int { raw / Pow2(w.e + w.m) }
  function ExponentField(w: Format, raw: nat): nat { (raw / Pow2(w.m)) % Pow2(w.e) }
  function MantissaField(w: Format, raw: nat): nat { raw % Pow2(w.m) }

  /** The number of a bit pattern whose exponent field is not all ones. */
  function Decode(w: Format, raw: nat): real
    requires w.e >= 1
  {
    var v := w.Value(ExponentField(w, raw), MantissaField(w, raw));
    if SignField(w, raw) == 0 then v else -v
  }

  function Assemble(w: Format, sign: nat, E: nat, M: nat): nat { sign * Pow2(w.e + w.m) + (E * Pow2(w.m) + M) }

  /** A pattern put together from its fields has those fields. */
  lemma FieldsOf(w: Format, sign: nat, E: nat, M: nat)
    requires w.Code(E, M)
    ensures var raw := Assemble(w, sign, E, M);
            SignField(w, raw) == sign && ExponentField(w, raw) == E && MantissaField(w, raw) == M
  {
    var p, q := Pow2(w.e), Pow2(w.m);
    Pow2Sum(w.e, w.m);
    FieldsOfParts(sign, E, M, p, q);
  }

  lemma FieldsOfParts(sign: nat, E: nat, M: nat, p: nat, q: nat)
    requires E < p && M < q && p * q > 0
    ensures var raw := sign * (p * q) + (E * q + M);
            raw / (p * q) == sign && (raw / q) % p == E && raw % q == M
  {
    var raw := sign * (p * q) + (E * q + M);
    assert E * q + M < p * q by { PackBound(M, E, q, p); }
    DivModUnique(raw, p * q, sign, E * q + M);
    assert raw == (sign * p + E) * q + M;
    DivModUnique(raw, q, sign * p + E, M);
    DivModUnique(sign * p + E, p, sign, E);
  }

  /** The shifted mantissa stays below the exponent field. */
  lemma ShiftedMantissa(m: nat, M: nat, wide: nat)
    requires m <= wide && M < Pow2(m)
    ensures M * Pow2(wide - m) < Pow2(wide) && Pow2(m) * Pow2(wide - m) == Pow2(wide)
  {
    Pow2Sum(m, wide - m);
    MulMono(M + 1, Pow2(m), Pow2(wide - m));
  }

  /** The pattern, field by field. */
  lemma MaxBitsAre(t: Type, w: Format)
    requires IsFloat(t) && w.e >= 2 && Fits(t, w)
    ensures MaxMantissa(t) >= 0 && WideExponent(t, w) >= 0
    ensures w.Code(WideExponent(t, w), MaxMantissa(t) * Pow2(w.m - t.mantissa))
    ensures MaxBits(t, w) == Assemble(w, 0, WideExponent(t, w), MaxMantissa(t) * Pow2(w.m - t.mantissa))
  {
    MaxFields(t);
    WideField(t, w);
    ShiftedMantissa(t.mantissa, MaxMantissa(t), w.m);
    OrOfShifted(MaxMantissa(t) * Pow2(w.m - t.mantissa), WideExponent(t, w), w.m);
  }

  /** (2^n + M 2^(n-m)) 2^k is (2^m + M) 2^(n-m+k). */
  lemma Rescale(m: nat, M: nat, n: nat, k: int)
    requires m <= n && M < Pow2(m)
    ensures Times(Pow2(n) + M * Pow2(n - m), RPow2(k)) == Times(Pow2(m) + M, RPow2(n - m + k))
  {
    assert Pow2(n) + M * Pow2(n - m) == (Pow2(m) + M) * Pow2(n - m) by { ShiftedMantissa(m, M, n); }
    RPow2Shift(n - m, k);
    TimesProduct(Pow2(m) + M, Pow2(n - m), RPow2(k));
  }

  /** The fields of the pattern. */
  lemma MaxBitsFields(t: Type, w: Format)
    requires IsFloat(t) && w.e >= 2 && Fits(t, w)
    ensures MaxMantissa(t) >= 0 && 0 < WideExponent(t, w) < Pow2(w.e) - 1
    ensures SignField(w, MaxBits(t, w)) == 0 && ExponentField(w, MaxBits(t, w)) == WideExponent(t, w)
    ensures MantissaField(w, MaxBits(t, w)) == MaxMantissa(t) * Pow2(w.m - t.mantissa)
  {
    MaxBitsAre(t, w);
    WideField(t, w);
    FieldsOf(w, 0, WideExponent(t, w), MaxMantissa(t) * Pow2(w.m - t.mantissa));
  }

  /** A positive normal number with a shifted mantissa, decoded. */
  lemma DecodeShifted(w: Format, raw: nat, E: nat, m: nat, M: nat)
    requires w.e >= 1 && m <= w.m && M < Pow2(m) && E > 0
    requires SignField(w, raw) == 0 && ExponentField(w, raw) == E && MantissaField(w, raw) == M * Pow2(w.m - m)
    ensures Decode(w, raw) == Times(Pow2(m) + M, RPow2(E - w.Bias() - m))
  {
    var k := E - w.Bias() - w.m;
    assert Decode(w, raw) == Times(Pow2(w.m) + M * Pow2(w.m - m), RPow2(k));
    Rescale(m, M, w.m, k);
    assert w.m - m + k == E - w.Bias() - m;
  }

  /** The decoded number in the terms of the type: a normal number with the maximal fields. */
  lemma DecodedMax(t: Type, w: Format)
    requires IsFloat(t) && w.e >= 2 && Fits(t, w)
    ensures ExponentField(w, MaxBits(t, w)) < Pow2(w.e) - 1 && MaxMantissa(t) >= 0
    ensures Decode(w, MaxBits(t, w)) ==
            Times(Pow2(t.mantissa) + MaxMantissa(t), RPow2(MaxExponent(t) - FormatOf(t).Bias() - t.mantissa))
  {
    MaxBitsFields(t, w);
    MaxFields(t);
    DecodeShifted(w, MaxBits(t, w), WideExponent(t, w), t.mantissa, MaxMantissa(t));
  }

  // ---------------------------------------------------------------------------
  // What it means
  // ---------------------------------------------------------------------------

  /** The finite codes of a type under its NaN rule. */
  predicate FiniteCode(t: Type, E: nat, M: nat)
    requires IsFloat(t)
  {
    FormatOf(t).Code(E, M) &&
    match t.nan
    case Ieee754 => E != Pow2(t.exponent) - 1
    case ExtdRangeMaxMin => !(E == Pow2(t.exponent) - 1 && M == Pow2(t.mantissa) - 1)
    case NoNan => true
  }

  /** The maximal fields are a finite code, and no finite code has a larger value. */
  lemma MaxCodeIsLargest(t: Type, E: nat, M: nat)
    requires IsFloat(t) && FiniteCode(t, E, M)
    ensures MaxExponent(t) >= 0 && MaxMantissa(t) >= 0 && FiniteCode(t, MaxExponent(t), MaxMantissa(t))
    ensures FormatOf(t).Value(E, M) <= FormatOf(t).Value(MaxExponent(t), MaxMantissa(t))
  {
    MaxFields(t);
    ValueMono(FormatOf(t), E, M, MaxExponent(t), MaxMantissa(t));
  }

  /** With one exponent bit the only finite IEEE numbers are subnormal; read as a normal number
      with the same fields, the largest of them becomes larger. */
  lemma SingleExponentBit(t: Type)
    requires IsFloat(t) && MaxExponent(t) == 0 && 0 <= MaxMantissa(t)
    ensures FormatOf(t).Value(0, MaxMantissa(t)) <
            Times(Pow2(t.mantissa) + MaxMantissa(t), RPow2(0 - FormatOf(t).Bias() - t.mantissa))
  {
    MaxFields(t);
    var k, M := 0 - FormatOf(t).Bias() - t.mantissa, MaxMantissa(t);
    assert Times(M, RPow2(1 + k)) == Times(2 * M, RPow2(k)) by {
      assert RPow2(1 + k) == Times(2, RPow2(k)) by { RPow2Shift(1, k); assert Pow2(1) == 2; }
      TimesProduct(M, 2, RPow2(k));
    }
    TimesMono(2 * M, Pow2(t.mantissa) + M, RPow2(k));
  }

  /** Main theorem: the pattern decodes to the largest finite value of the type exactly if the
      type is not an IEEE type with a single exponent bit. */
  lemma MaxIsLargestIff(t: Type, w: Format)
    requires IsFloat(t) && w.e >= 2 && Fits(t, w)
    ensures MaxExponent(t) >= 0 && MaxMantissa(t) >= 0
    ensures Decode(w, MaxBits(t, w)) == FormatOf(t).Value(MaxExponent(t), MaxMantissa(t))
            <==> !(t.nan.Ieee754? && t.exponent == 1)
  {
    MaxFields(t);
    DecodedMax(t, w);
    if t.nan.Ieee754? && t.exponent == 1 {
      SingleExponentBit(t);
    }
  }

  /** The smallest value: setting the sign bit negates the largest. */
  lemma MinIsNegated(t: Type, w: Format)
    requires IsFloat(t) && w.e >= 2 && Fits(t, w)
    ensures Decode(w, Or(MaxBits(t, w), Pow2(w.e + w.m))) == -Decode(w, MaxBits(t, w))
  {
    MaxBitsAre(t, w);
    SignNegates(w, WideExponent(t, w), MaxMantissa(t) * Pow2(w.m - t.mantissa));
  }

  lemma SignNegates(w: Format, E: nat, M: nat)
    requires w.e >= 1 && w.Code(E, M)
    ensures Decode(w, Or(Assemble(w, 0, E, M), Pow2(w.e + w.m))) == -Decode(w, Assemble(w, 0, E, M))
  {
    assert Assemble(w, 0, E, M) < Pow2(w.e + w.m) by { BelowSign(w, E, M); }
    OrOfShifted(Assemble(w, 0, E, M), 1, w.e + w.m);
    assert Or(Assemble(w, 0, E, M), Pow2(w.e + w.m)) == Assemble(w, 1, E, M);
    FieldsOf(w, 0, E, M);
    FieldsOf(w, 1, E, M);
  }

  lemma BelowSign(w: Format, E: nat, M: nat)
    requires w.Code(E, M)
    ensures Assemble(w, 0, E, M) < Pow2(w.e + w.m)
  {
    Pow2Sum(w.e, w.m);
    PackBound(M, E, Pow2(w.m), Pow2(w.e));
  }

  // ---------------------------------------------------------------------------
  // Known values
  // ---------------------------------------------------------------------------

  /** In every format the field 2^(e-1) - 1 with mantissa 0 is the number 1, and one more in the
      exponent doubles a normal number. */
  lemma OneIs(f: Format)
    requires f.e >= 2
    ensures f.Value(Pow2(f.e - 1) - 1, 0) == 1.0
  {
    RPow2Shift(f.m, 0 - f.m);
    assert Pow2(f.e - 1) == 2 * Pow2(f.e - 2);
    assert Pow2(f.e - 1) - 1 - f.Bias() - f.m == 0 - f.m;
  }

  lemma Doubles(f: Format, E: nat, M: nat)
    requires f.e >= 1 && E >= 1
    ensures f.Value(E + 1, M) == 2.0 * f.Value(E, M)
  {
    RPow2Next(E - f.Bias() - f.m);
    TimesTwice(Pow2(f.m) + M, RPow2(E - f.Bias() - f.m));
  }

  lemma {:induction false} TimesTwice(n: nat, u: real)
    ensures Times(n, 2.0 * u) == 2.0 * Times(n, u)
  {
    if n > 0 {
      TimesTwice(n - 1, u);
    }
  }

  /** The largest values of the 8-bit formats E4M3 (448) and E5M2 (57344), and of binary16 (65504). */
  lemma KnownMaxima()
    ensures Largest(Type(4, 3, true, 0, true, ExtdRangeMaxMin)) == 448.0
    ensures Largest(Type(5, 2, true, 0, false, Ieee754)) == 57344.0
    ensures Largest(Type(5, 10, true, 0, false, Ieee754)) == 65504.0
  {
    DecodedMax(Type(4, 3, true, 0, true, ExtdRangeMaxMin), Binary64());
    DecodedMax(Type(5, 2, true, 0, false, Ieee754), Binary64());
    DecodedMax(Type(5, 10, true, 0, false, Ieee754), Binary64());
    assert Pow2(3) == 8 && Pow2(4) == 16 && Pow2(2) == 4 && Pow2(5) == 32 && Pow2(10) == 1024;
    assert RPow2(5) == 32.0 && RPow2(13) == 8192.0;
    TimesIsProduct(14, 32.0);
    TimesIsProduct(7, 8192.0);
    TimesIsProduct(2047, 32.0);
  }

  function Largest(t: Type): real
    requires IsFloat(t) && Fits(t, Binary64())
  {
    Decode(Binary64(), MaxBits(t, Binary64()))
  }

  // ---------------------------------------------------------------------------
  // As the code does it, with binary64
  // ---------------------------------------------------------------------------

  function Binary64(): Format { Format(11, 52) }

  datatype Limit = Limit(value: real) | AssertionError

  /** The raw maximum and minimum of a floating-point type.  The maximum exists exactly if the type
      fits into binary64, the minimum if it is also signed, and it is the negated maximum.  Unless
      the type is an IEEE type with one exponent bit, the maximum is a finite value of the type
      and bounds all of them. */
  method FloatExtremes(t: Type) returns (max: Limit, min: Limit)
    requires IsFloat(t)
    ensures max.Limit? <==> t.mantissa <= 52 && t.exponent <= 11 && (t.nan.Ieee754? || t.exponent <= 10)
    ensures min.Limit? <==> max.Limit? && t.signed
    ensures min.Limit? ==> min.value == -max.value
    ensures max.Limit? && !(t.nan.Ieee754? && t.exponent == 1) ==>
              && (forall E: nat, M: nat :: FiniteCode(t, E, M) ==> FormatOf(t).Value(E, M) <= max.value)
              && (exists E: nat, M: nat :: FiniteCode(t, E, M) && FormatOf(t).Value(E, M) == max.value)
  {
    var w := Binary64();
    if !Fits(t, w) {
      return AssertionError, AssertionError;
    }
    var raw := MaxBits(t, w);
    max := Limit(Decode(w, raw));
    if t.signed {
      MinIsNegated(t, w);
      min := Limit(Decode(w, Or(raw, Pow2(w.e + w.m))));
    } else {
      min := AssertionError;
    }
    MaxIsLargestIff(t, w);
    MaxCodeIsLargest(t, 0, 0) by { ZeroIsFinite(t); }
    forall E: nat, M: nat | FiniteCode(t, E, M)
      ensures FormatOf(t).Value(E, M) <= FormatOf(t).Value(MaxExponent(t), MaxMantissa(t))
    {
      MaxCodeIsLargest(t, E, M);
    }
  }

  lemma ZeroIsFinite(t: Type)
    requires IsFloat(t)
    ensures FiniteCode(t, 0, 0)
  {
    assert Pow2(t.exponent) == 2 * Pow2(t.exponent - 1);
  }
}
