/** The compact `nBits` form of a 256-bit proof-of-work target. */
module Compact {
  import opened Bytes

  const EXPONENT_UNIT: nat := 0x100_0000
  const SIGN_BIT: nat := 0x80_0000
  const POW_LIMIT_BITS: nat := 0x1f7f_ffff

  /** compact_to_target: shifting left drops the bits above 256. */
  function Decode(bits: nat): (target: nat)
    ensures target < U256_BOUND
  {
    var exponent, mantissa := bits / EXPONENT_UNIT, bits % SIGN_BIT;
    if mantissa == 0 then 0
    else if exponent <= 3 then
      QuotientBelow(mantissa, Pow256(3 - exponent));
      mantissa / Pow256(3 - exponent)
    else (mantissa * Pow256(exponent - 3)) % U256_BOUND
  }

  lemma QuotientBelow(a: nat, d: nat)
    requires d > 0
    ensures a / d <= a
  {
    MulLe(1, d, a / d);
  }

  /** The easiest target, pow_limit_target(). */
  const POW_LIMIT: nat := 0x7f_ffff_0000_0000_0000_0000_0000_0000_0000_0000_0000_0000_0000_0000_0000_0000

  /** The three leading bytes of a target, padded on the right when it is shorter. */
  function TopBytes(t: nat): (m: nat) {
    var n := ByteLen(t);
    if n <= 3 then t * Pow256(3 - n) else t / Pow256(n - 3)
  }

  /** Byte length, one more when the top bit would read as a sign. */
  function Size(t: nat): (s: nat) {
    if TopBytes(t) >= SIGN_BIT then ByteLen(t) + 1 else ByteLen(t)
  }

  function Mantissa(t: nat): (m: nat) {
    if TopBytes(t) >= SIGN_BIT then TopBytes(t) / 256 else TopBytes(t)
  }

  function Encode(t: nat): (bits: nat) {
    if t == 0 then 0 else Size(t) * EXPONENT_UNIT + Mantissa(t)
  }

  /** target_to_compact over the big-endian bytes of the target. */
  method TargetToCompact(t: nat) returns (bits: nat)
    requires t < U256_BOUND
    ensures bits == Encode(t)
  {
    if t == 0 {
      return 0;
    }
    var size, mantissa := SizeAndTop(t);
    if mantissa >= SIGN_BIT {
      mantissa := mantissa / 256;
      size := size + 1;
    }
    return size * EXPONENT_UNIT + mantissa;
  }

  method SizeAndTop(t: nat) returns (size: nat, top: nat)
    requires 0 < t < U256_BOUND
    ensures size == ByteLen(t) && top == TopBytes(t)
  {
    var bytes := BigEndian(t, 32);
    AsBytes(t);
    var first := FirstNonZero(bytes);
    size := 32 - first;
    top := LeadingMantissa(bytes[first..]);
    Leading(bytes, t, first);
  }

  lemma AsBytes(t: nat)
    requires t < U256_BOUND
    ensures Value(BigEndian(t, 32)) == t
  {
    PowValues();
    ValueOfBigEndian(t, 32);
  }

  /** Without its leading zeros the byte string has the number's length and value. */
  lemma Leading(bytes: seq<nat>, t: nat, first: nat)
    requires IsBytes(bytes) && Value(bytes) == t && first < |bytes| && bytes[first] != 0
    requires forall i :: 0 <= i < first ==> bytes[i] == 0
    ensures |bytes| - first == ByteLen(t) && Value(bytes[first..]) == t
  {
    LeadingByte(bytes, first);
    ByteLenUnique(t, |bytes| - first);
  }

  method FirstNonZero(bytes: seq<nat>) returns (first: nat)
    requires Value(bytes) > 0
    ensures first < |bytes| && bytes[first] != 0
    ensures forall i :: 0 <= i < first ==> bytes[i] == 0
  {
    first := 0;
    if forall i :: 0 <= i < |bytes| ==> bytes[i] == 0 {
      ValueOfZeros(bytes);
    }
    while bytes[first] == 0
      invariant first < |bytes|
      invariant forall i :: 0 <= i < first ==> bytes[i] == 0
      decreases |bytes| - first
    {
      first := first + 1;
    }
  }

  method LeadingMantissa(bytes: seq<nat>) returns (m: nat)
    requires IsBytes(bytes) && |bytes| > 0
    ensures m == if |bytes| <= 3 then Value(bytes) * Pow256(3 - |bytes|) else Value(bytes) / Pow256(|bytes| - 3)
  {
    if |bytes| <= 3 {
      m := 0;
      for i := 0 to |bytes|
        invariant m == Value(bytes[..i])
      {
        assert bytes[..i + 1][..i] == bytes[..i];
        m := m * 256 + bytes[i];
      }
      assert bytes[..|bytes|] == bytes;
      m := m * Pow256(3 - |bytes|);
    } else {
      m := bytes[0] * 0x1_0000 + bytes[1] * 0x100 + bytes[2];
      LeadingThree(bytes);
    }
  }

  lemma LeadingThree(bs: seq<nat>)
    requires IsBytes(bs) && |bs| > 3
    ensures Value(bs) / Pow256(|bs| - 3) == bs[0] * 0x1_0000 + bs[1] * 0x100 + bs[2]
  {
    var p, s := bs[..3], bs[3..];
    assert bs == p + s;
    assert Value(p) == bs[0] * 0x1_0000 + bs[1] * 0x100 + bs[2] by {
      assert p[..2][..1] == [bs[0]] && [bs[0]][..0] == [];
      assert Value(p[..2]) == Value([bs[0]]) * 256 + bs[1];
    }
    ValueSplit(p, s);
    ValueBound(s);
    DivModUnique(Value(p), Value(s), Pow256(|bs| - 3));
  }

  lemma TopBytesRange(t: nat)
    requires t > 0
    ensures 0x1_0000 <= TopBytes(t) < 0x100_0000
  {
    var n := ByteLen(t);
    PowValues();
    if n <= 3 {
      assert n == 1 || n == 2 || n == 3;
    } else {
      var w := Pow256(n - 3);
      PowAdd(2, n - 3);
      PowAdd(3, n - 3);
      QuotientRange(t, w, 0x1_0000, 0x100_0000);
    }
  }

  lemma QuotientRange(t: nat, w: nat, lo: nat, hi: nat)
    requires w > 0 && lo * w <= t < hi * w
    ensures lo <= t / w < hi
  {
    var k := lo - t / w;
    assert k * w <= t % w;
    NoBigMultiple(k, w);
    var j := t / w - hi + 1;
    assert j * w < w;
    NoBigMultiple(j, w);
  }

  /** What the two fields of the compact form are, in one formula for both branches. */
  lemma Shape(t: nat)
    requires t > 0
    ensures Size(t) >= 1 && 0x8000 <= Mantissa(t) < SIGN_BIT
    ensures Size(t) <= 3 ==> Mantissa(t) == t * Pow256(3 - Size(t))
    ensures Size(t) >= 3 ==> Mantissa(t) == t / Pow256(Size(t) - 3)
  {
    var n := ByteLen(t);
    TopBytesRange(t);
    PowValues();
    if n <= 3 {
      assert n == 1 || n == 2 || n == 3;
    } else if TopBytes(t) >= SIGN_BIT {
      DivDiv(t, Pow256(n - 3), 256);
      assert Pow256(n - 3) * 256 == Pow256(Size(t) - 3);
    }
  }

  /** One unit in the last kept mantissa place. */
  function Unit(t: nat): (u: nat)
    ensures u > 0
  {
    if t > 0 && Size(t) > 3 then Pow256(Size(t) - 3) else 1
  }

  /** The largest multiple of w not above t. */
  function FloorTo(t: nat, w: nat): (r: nat)
    requires w > 0
    ensures r <= t < r + w
  {
    (t / w) * w
  }

  lemma FloorKeeps(k: nat, t: nat, w: nat)
    requires w > 0 && k * w <= t
    ensures k * w <= FloorTo(t, w)
  {
    DivMonotone(k * w, t, w);
    DivModUnique(k, 0, w);
    MulLe(k, t / w, w);
  }

  lemma FloorAgain(t: nat, w: nat)
    requires w > 0
    ensures FloorTo(t, w) / w == t / w
  {
    DivModUnique(t / w, 0, w);
  }

  /** The targets of size field s are those in [Ceiling(s - 1), Ceiling(s)). */
  function Ceiling(s: nat): (c: nat)
    ensures c > 0
  {
    if s >= 3 then SIGN_BIT * Pow256(s - 3) else if s == 2 then 0x8000 else if s == 1 then 0x80 else 1
  }

  lemma CeilingMonotone(s: nat, s': nat)
    requires s <= s'
    ensures Ceiling(s) <= Ceiling(s')
  {
    if s >= 3 {
      PowMonotone(s - 3, s' - 3);
    } else if s' >= 3 {
      PowMonotone(0, s' - 3);
    }
  }

  lemma SizeBounds(t: nat)
    requires t > 0
    ensures Size(t) > 0 && Ceiling(Size(t) - 1) <= t < Ceiling(Size(t))
  {
    Shape(t);
    PowValues();
    var s := Size(t);
    if s >= 3 {
      var w := Pow256(s - 3);
      FromQuotient(t, w, 0x8000, SIGN_BIT);
      assert s > 3 ==> Ceiling(s - 1) == 0x8000 * w;
    } else {
      assert s == 1 || s == 2;
    }
  }

  lemma FromQuotient(t: nat, w: nat, lo: nat, hi: nat)
    requires w > 0 && lo <= t / w < hi
    ensures lo * w <= t < hi * w
  {
    MulLe(lo, t / w, w);
    MulLe(t / w + 1, hi, w);
    assert t == (t / w) * w + t % w;
  }

  lemma SizeMonotone(t: nat, t': nat)
    requires 0 < t <= t'
    ensures Size(t) <= Size(t')
  {
    SizeBounds(t);
    SizeBounds(t');
    if Size(t) > Size(t') {
      CeilingMonotone(Size(t'), Size(t) - 1);
    }
  }

  lemma SizeUnique(t: nat, s: nat)
    requires s > 0 && Ceiling(s - 1) <= t < Ceiling(s)
    ensures Size(t) == s
  {
    SizeBounds(t);
    if Size(t) < s {
      CeilingMonotone(Size(t), s - 1);
    } else if s < Size(t) {
      CeilingMonotone(s, Size(t) - 1);
    }
  }

  lemma FieldsOfCompact(s: nat, m: nat)
    requires m < SIGN_BIT
    ensures (s * EXPONENT_UNIT + m) / EXPONENT_UNIT == s
    ensures (s * EXPONENT_UNIT + m) % SIGN_BIT == m
  {
  }

  lemma DecodeFields(s: nat, m: nat)
    requires 0 < m < SIGN_BIT
    ensures s <= 3 ==> Decode(s * EXPONENT_UNIT + m) == m / Pow256(3 - s)
    ensures s > 3 && m * Pow256(s - 3) < U256_BOUND ==> Decode(s * EXPONENT_UNIT + m) == m * Pow256(s - 3)
  {
    FieldsOfCompact(s, m);
  }

  /** Encoding then decoding rounds down to a whole number of units, and nothing else. */
  lemma RoundTrip(t: nat)
    requires t < U256_BOUND
    ensures Decode(Encode(t)) == FloorTo(t, Unit(t))
  {
    if t > 0 {
      Shape(t);
      RoundTripOf(t, Size(t), Mantissa(t));
    }
  }

  lemma RoundTripOf(t: nat, s: nat, m: nat)
    requires 0 < t < U256_BOUND && 0 < m < SIGN_BIT
    requires s <= 3 ==> m == t * Pow256(3 - s)
    requires s > 3 ==> m == t / Pow256(s - 3)
    ensures Decode(s * EXPONENT_UNIT + m) == FloorTo(t, if s > 3 then Pow256(s - 3) else 1)
  {
    DecodeFields(s, m);
    if s <= 3 {
      DivModUnique(t, 0, Pow256(3 - s));
    }
  }

  /** Rounding down never leaves the range of the size field. */
  lemma RoundingKeepsSize(t: nat)
    requires t > 0
    ensures Size(t) > 0 && Ceiling(Size(t) - 1) <= FloorTo(t, Unit(t)) < Ceiling(Size(t))
    ensures Size(FloorTo(t, Unit(t))) == Size(t)
  {
    SizeBounds(t);
    var s := Size(t);
    if s > 3 {
      var w := Pow256(s - 3);
      assert Ceiling(s - 1) == 0x8000 * w;
      FloorKeeps(0x8000, t, w);
    }
    SizeUnique(FloorTo(t, Unit(t)), s);
  }

  /** The unit is a small fraction of the target, and 1 on targets up to 0x7fffff. */
  lemma UnitSmall(t: nat)
    requires t > 0
    ensures Unit(t) == 1 || 0x8000 * Unit(t) <= t
    ensures t < SIGN_BIT ==> Unit(t) == 1
  {
    SizeBounds(t);
    var s := Size(t);
    if s > 3 {
      assert Ceiling(s - 1) == 0x8000 * Pow256(s - 3);
      CeilingMonotone(3, s - 1);
      PowValues();
    }
  }

  lemma CodecBounds(t: nat)
    requires t < U256_BOUND
    ensures Decode(Encode(t)) <= t < Decode(Encode(t)) + Unit(t)
    ensures t < SIGN_BIT ==> Decode(Encode(t)) == t
    ensures t > 0 ==> Decode(Encode(t)) > 0
  {
    RoundTrip(t);
    if t > 0 {
      UnitSmall(t);
    }
  }

  /** Smaller targets have smaller compact forms, both raw and decoded. */
  lemma EncodeMonotone(t: nat, t': nat)
    requires t <= t' < U256_BOUND
    ensures Encode(t) <= Encode(t')
    ensures Decode(Encode(t)) <= Decode(Encode(t'))
  {
    if t > 0 {
      RoundTrip(t);
      RoundTrip(t');
      SizeMonotone(t, t');
      if Size(t) < Size(t') {
        Shape(t);
        Shape(t');
        RoundingKeepsSize(t);
        RoundingKeepsSize(t');
        CeilingMonotone(Size(t), Size(t') - 1);
      } else {
        SameSizeMonotone(t, t');
      }
    }
  }

  lemma SameSizeMonotone(t: nat, t': nat)
    requires 0 < t <= t' && Size(t) == Size(t')
    ensures Mantissa(t) <= Mantissa(t')
    ensures FloorTo(t, Unit(t)) <= FloorTo(t', Unit(t'))
  {
    Shape(t);
    Shape(t');
    var s := Size(t);
    if s <= 3 {
      MulLe(t, t', Pow256(3 - s));
    } else {
      DivMonotone(t, t', Pow256(s - 3));
      MulLe(t / Pow256(s - 3), t' / Pow256(s - 3), Pow256(s - 3));
    }
  }

  /** Re-encoding a decoded target changes nothing. */
  lemma EncodeIdempotent(t: nat)
    requires t < U256_BOUND
    ensures Encode(Decode(Encode(t))) == Encode(t)
  {
    RoundTrip(t);
    if t > 0 {
      RoundingKeepsSize(t);
      var d := FloorTo(t, Unit(t));
      Shape(t);
      Shape(d);
      if Size(t) > 3 {
        FloorAgain(t, Pow256(Size(t) - 3));
      }
    }
  }

  lemma PowLimitDecodes()
    ensures Decode(POW_LIMIT_BITS) == Decode(0x1f7f_ffff) == POW_LIMIT == 0x7f_ffff * Pow256(28)
  {
    PowValues();
    DecodeFields(31, 0x7f_ffff);
  }

  // ---- every bit pattern ----

  /** The low 23 bits times 256 to the power of the high byte, less three places, cut to 256 bits: the bit between them
      counts for nothing, and what is shifted out to the right is lost. */
  lemma DecodeIsScaled(bits: nat)
    ensures Decode(bits) == bits % 0x80_0000 * Pow256(bits / 0x100_0000) / 0x100_0000 % U256_BOUND
  {
    var e, m := bits / 0x100_0000, bits % 0x80_0000;
    PowValues();
    if e <= 3 {
      PowAdd(3 - e, e);
      ShiftedOut(m, Pow256(3 - e), Pow256(e));
    } else {
      PowAdd(e - 3, 3);
      ShiftedIn(m, Pow256(e - 3));
    }
  }

  lemma ShiftedOut(m: nat, a: nat, b: nat)
    requires m < 0x80_0000 && a > 0 && b > 0 && a * b == 0x100_0000
    ensures m * b / 0x100_0000 % U256_BOUND == m / a
  {
    Cancelled(m, a, b);
    QuotientBelow(m, a);
  }

  lemma Cancelled(m: nat, a: nat, b: nat)
    requires a > 0 && b > 0
    ensures a * b > 0 && m * b / (a * b) == m / a
  {
    assert a * b == b * a;
    DivModUnique(m, 0, b);
    DivDiv(m * b, b, a);
  }

  lemma ShiftedIn(m: nat, a: nat)
    ensures m * (a * 0x100_0000) / 0x100_0000 == m * a
  {
    assert m * (a * 0x100_0000) == m * a * 0x100_0000 + 0;
    DivModUnique(m * a, 0, 0x100_0000);
  }
}
