/** Pool shares: the hex-prefix test, the numeric test and the miner's bytewise test of one hash. */
module Shares {
  import opened Bytes
  import opened Compact

  ghost predicate IsHash(h: seq<nat>) { |h| == 32 && IsBytes(h) }

  // ---- leading zeros ----

  /** Hex digit j of a byte string, two digits to a byte. */
  function Digit(bs: seq<nat>, j: nat): (x: nat)
    requires j < 2 * |bs|
  {
    if j % 2 == 0 then bs[j / 2] / 16 else bs[j / 2] % 16
  }

  /** The hex form starts with d zeros. */
  predicate HasPrefix(h: seq<nat>, d: nat) {
    d <= 2 * |h| && forall j :: 0 <= j < d ==> Digit(h, j) == 0
  }

  /** 16^(2n - d). */
  function Bound(n: nat, d: nat): (b: nat)
    requires d <= 2 * n
    ensures b > 0
  {
    if d % 2 == 0 then Pow256(n - d / 2) else 16 * Pow256(n - d / 2 - 1)
  }

  lemma BoundDecreases(n: nat, d: nat, e: nat)
    requires d <= e <= 2 * n
    ensures Bound(n, e) <= Bound(n, d)
  {
    PowMonotone(n - e / 2, n - d / 2);
    if d % 2 == 1 && d < e {
      PowMonotone(n - e / 2, n - d / 2 - 1);
    }
  }

  ghost predicate ZeroBytes(bs: seq<nat>, k: nat) {
    k <= |bs| && forall i :: 0 <= i < k ==> bs[i] == 0
  }

  lemma ZeroBytesIff(bs: seq<nat>, k: nat)
    requires IsBytes(bs) && k <= |bs|
    ensures ZeroBytes(bs, k) <==> Value(bs) < Pow256(|bs| - k)
    ensures ZeroBytes(bs, k) ==> Value(bs) == Value(bs[k..])
  {
    assert bs == bs[..k] + bs[k..];
    ValueSplit(bs[..k], bs[k..]);
    ValueBound(bs[k..]);
    if ZeroBytes(bs, k) {
      ValueOfZeros(bs[..k]);
    } else {
      ValuePositive(bs[..k]);
      MulLe(1, Value(bs[..k]), Pow256(|bs| - k));
    }
  }

  lemma {:induction false} ValuePositive(bs: seq<nat>)
    requires exists i :: 0 <= i < |bs| && bs[i] != 0
    ensures Value(bs) > 0
  {
    var front := bs[..|bs| - 1];
    if bs[|bs| - 1] == 0 {
      var i :| 0 <= i < |bs| && bs[i] != 0;
      assert front[i] != 0;
      ValuePositive(front);
    }
  }

  lemma DigitsOfByte(h: seq<nat>, i: nat)
    requires i < |h|
    ensures Digit(h, 2 * i) == h[i] / 16 && Digit(h, 2 * i + 1) == h[i] % 16
  {
    assert (2 * i) / 2 == i && (2 * i + 1) / 2 == i;
  }

  lemma PrefixGivesBytes(h: seq<nat>, d: nat)
    requires IsBytes(h) && HasPrefix(h, d)
    ensures ZeroBytes(h, d / 2) && (d % 2 == 1 ==> h[d / 2] < 16)
  {
    forall i | 0 <= i < d / 2
      ensures h[i] == 0
    {
      DigitsOfByte(h, i);
      assert Digit(h, 2 * i) == 0 && Digit(h, 2 * i + 1) == 0;
    }
    if d % 2 == 1 {
      assert Digit(h, d - 1) == 0;
    }
  }

  lemma BytesGivePrefix(h: seq<nat>, d: nat)
    requires IsBytes(h) && d <= 2 * |h|
    requires ZeroBytes(h, d / 2) && (d % 2 == 1 ==> h[d / 2] < 16)
    ensures HasPrefix(h, d)
  {
    forall j | 0 <= j < d
      ensures Digit(h, j) == 0
    {
      if j / 2 < d / 2 {
        assert h[j / 2] == 0;
      }
    }
  }

  /** A hash starts with d hex zeros exactly when, as a number, it is below 16^(2n - d). */
  lemma PrefixIff(h: seq<nat>, d: nat)
    requires IsBytes(h) && d <= 2 * |h|
    ensures HasPrefix(h, d) <==> Value(h) < Bound(|h|, d)
  {
    BytesIffBound(h, d);
    if HasPrefix(h, d) {
      PrefixGivesBytes(h, d);
    } else if ZeroBytes(h, d / 2) && (d % 2 == 1 ==> h[d / 2] < 16) {
      BytesGivePrefix(h, d);
    }
  }

  lemma BytesIffBound(h: seq<nat>, d: nat)
    requires IsBytes(h) && d <= 2 * |h|
    ensures ZeroBytes(h, d / 2) && (d % 2 == 1 ==> h[d / 2] < 16) <==> Value(h) < Bound(|h|, d)
  {
    var k := d / 2;
    if d % 2 == 1 {
      OddBound(h, k);
      assert Bound(|h|, d) == 16 * Pow256(|h| - k - 1);
    } else {
      ZeroBytesIff(h, k);
      assert Bound(|h|, d) == Pow256(|h| - k);
    }
  }

  lemma OddBound(h: seq<nat>, k: nat)
    requires IsBytes(h) && k < |h|
    ensures ZeroBytes(h, k) && h[k] < 16 <==> Value(h) < 16 * Pow256(|h| - k - 1)
  {
    ZeroBytesIff(h, k);
    assert Pow256(|h| - k) == 256 * Pow256(|h| - k - 1);
    if ZeroBytes(h, k) {
      TopNibbleIff(h[k..]);
    }
  }

  lemma TopNibbleIff(bs: seq<nat>)
    requires IsBytes(bs) && |bs| > 0
    ensures bs[0] < 16 <==> Value(bs) < 16 * Pow256(|bs| - 1)
  {
    assert bs[..1] == [bs[0]] && bs[..0] == [];
    SplitAt(bs, 0);
    ValueBound(bs[1..]);
    if bs[0] < 16 {
      MulLe(bs[0] + 1, 16, Pow256(|bs| - 1));
    } else {
      MulLe(16, bs[0], Pow256(|bs| - 1));
    }
  }

  // ---- classification ----

  datatype ShareResult = AcceptedShare | FoundBlock | Rejected

  /** validate_share on the computed header hash. */
  function ValidateShare(h: seq<nat>, poolDiff: nat, bits: nat): (r: ShareResult) {
    if !HasPrefix(h, poolDiff) then Rejected
    else if Decode(bits) == 0 then AcceptedShare
    else if Value(h) < Decode(bits) then FoundBlock
    else AcceptedShare
  }

  function Pow16(n: nat): (r: nat) { if n == 0 then 1 else 16 * Pow16(n - 1) }

  lemma {:induction false} Pow16Even(n: nat)
    ensures Pow16(2 * n) == Pow256(n)
  {
    if n > 0 {
      Pow16Even(n - 1);
      assert Pow16(2 * n) == 16 * Pow16(2 * n - 1) && Pow16(2 * n - 1) == 16 * Pow16(2 * (n - 1));
    }
  }

  lemma BoundIsPower(n: nat, d: nat)
    requires d <= 2 * n
    ensures Bound(n, d) == Pow16(2 * n - d)
  {
    if d % 2 == 0 {
      Pow16Even(n - d / 2);
    } else {
      Pow16Even(n - d / 2 - 1);
      assert 2 * n - d == 2 * (n - d / 2 - 1) + 1;
    }
  }

  /** A hash is rejected exactly when it is at least 16^(64 - d), or d is more than its 64 digits; otherwise it is found
      to be a block exactly when it is below the network target. */
  lemma ShareResultIff(h: seq<nat>, poolDiff: nat, bits: nat)
    requires IsHash(h)
    ensures var r, below := ValidateShare(h, poolDiff, bits), poolDiff <= 64 && Value(h) < Pow16(64 - poolDiff);
      && (r == Rejected <==> !below)
      && (r == FoundBlock <==> below && Value(h) < Decode(bits))
      && (r == AcceptedShare <==> below && Value(h) >= Decode(bits))
  {
    if poolDiff <= 64 {
      PrefixIff(h, poolDiff);
      BoundIsPower(32, poolDiff);
    }
  }

  /** Every hash below the network target is reported as a block, and no other hash is. */
  ghost predicate ExactFor(poolDiff: nat, bits: nat) {
    forall h :: IsHash(h) ==> (ValidateShare(h, poolDiff, bits).FoundBlock? <==> Value(h) < Decode(bits))
  }

  /** Classification is exact exactly when the target is zero or at most 16^(64 - d): a harder pool prefix would
      turn some blocks away. */
  lemma ClassificationExactIff(poolDiff: nat, bits: nat)
    ensures ExactFor(poolDiff, bits) <==> Decode(bits) == 0 || (poolDiff <= 64 && Decode(bits) <= Bound(32, poolDiff))
  {
    if Decode(bits) > 0 {
      if poolDiff > 64 {
        AllTurnedAway(poolDiff, bits);
      } else {
        ExactWithinBound(poolDiff, bits);
      }
    }
  }

  lemma AllTurnedAway(poolDiff: nat, bits: nat)
    requires poolDiff > 64 && Decode(bits) > 0
    ensures !ExactFor(poolDiff, bits)
  {
    var h := BigEndian(0, 32);
    ValueOfBigEndian(0, 32);
    assert IsHash(h) && Value(h) < Decode(bits);
  }

  lemma ExactWithinBound(poolDiff: nat, bits: nat)
    requires poolDiff <= 64
    ensures ExactFor(poolDiff, bits) <==> Decode(bits) <= Bound(32, poolDiff)
  {
    PowValues();
    if Decode(bits) <= Bound(32, poolDiff) {
      forall h | IsHash(h)
        ensures ValidateShare(h, poolDiff, bits).FoundBlock? <==> Value(h) < Decode(bits)
      {
        PrefixIff(h, poolDiff);
      }
    } else {
      var h := BigEndian(Bound(32, poolDiff), 32);
      ValueOfBigEndian(Bound(32, poolDiff), 32);
      PrefixIff(h, poolDiff);
      assert IsHash(h);
    }
  }

  /** Leading zero nibbles of a byte string. */
  function ZeroNibbles(bs: seq<nat>): (n: nat)
    ensures n <= 2 * |bs|
  {
    if bs == [] then 0
    else if bs[0] == 0 then 2 + ZeroNibbles(bs[1..])
    else if bs[0] < 16 then 1 else 0
  }

  /** Dropping a zero byte drops two digits of the bound. */
  lemma BoundShift(n: nat, d: nat)
    requires n > 0 && 2 <= d <= 2 * n
    ensures Bound(n, d) == Bound(n - 1, d - 2)
  {
    assert (d - 2) / 2 == d / 2 - 1 && (d - 2) % 2 == d % 2;
  }

  lemma {:induction false} ZeroNibblesBound(bs: seq<nat>)
    requires IsBytes(bs) && Value(bs) > 0
    ensures var n := ZeroNibbles(bs); n < 2 * |bs| && Bound(|bs|, n + 1) <= Value(bs) < Bound(|bs|, n)
  {
    if bs[0] == 0 {
      ZeroBytesIff(bs, 1);
      var n := ZeroNibbles(bs[1..]);
      ZeroNibblesBound(bs[1..]);
      BoundShift(|bs|, n + 2);
      BoundShift(|bs|, n + 3);
    } else {
      NonzeroTop(bs);
    }
  }

  lemma FirstBounds(n: nat)
    requires n > 0
    ensures Bound(n, 0) == Pow256(n) && Bound(n, 1) == 16 * Pow256(n - 1) && Bound(n, 2) == Pow256(n - 1)
  {
  }

  lemma NonzeroTop(bs: seq<nat>)
    requires IsBytes(bs) && |bs| > 0 && bs[0] != 0
    ensures bs[0] < 16 ==> Bound(|bs|, 2) <= Value(bs) < Bound(|bs|, 1)
    ensures bs[0] >= 16 ==> Bound(|bs|, 1) <= Value(bs) < Bound(|bs|, 0)
  {
    FirstBounds(|bs|);
    ValueBound(bs);
    TopNibbleIff(bs);
    LeadingByte(bs, 0);
  }

  /** initial_pool_difficulty: one nibble easier than the network target, at least 1. */
  method InitialPoolDifficulty(bits: nat) returns (d: nat)
    ensures Decode(bits) == 0 ==> d == 1
    ensures Decode(bits) > 0 ==>
      var n := ZeroNibbles(BigEndian(Decode(bits), 32)); d == if n >= 2 then n - 1 else 1
  {
    var target := Decode(bits);
    if target == 0 {
      return 1;
    }
    var bytes := BigEndian(target, 32);
    var zeros, i := 0, 0;
    while i < 32
      invariant 0 <= i <= 32
      invariant zeros + ZeroNibbles(bytes[i..]) == ZeroNibbles(bytes)
    {
      assert bytes[i..][1..] == bytes[i + 1..];
      if bytes[i] == 0 {
        zeros := zeros + 2;
      } else {
        if bytes[i] / 16 == 0 {
          zeros := zeros + 1;
        }
        break;
      }
      i := i + 1;
    }
    assert zeros == ZeroNibbles(bytes) by {
      if i == 32 {
        assert bytes[32..] == [];
      }
    }
    return if zeros >= 2 then zeros - 1 else 1;
  }

  /** A pool prefix no longer than the target's own leading zeros classifies exactly. */
  lemma EasierPrefixIsExact(poolDiff: nat, bits: nat)
    requires Decode(bits) > 0 && poolDiff <= ZeroNibbles(BigEndian(Decode(bits), 32))
    ensures ExactFor(poolDiff, bits)
  {
    PowValues();
    var bytes := BigEndian(Decode(bits), 32);
    ValueOfBigEndian(Decode(bits), 32);
    ZeroNibblesBound(bytes);
    BoundDecreases(32, poolDiff, ZeroNibbles(bytes));
    ClassificationExactIff(poolDiff, bits);
  }

  /** The initial difficulty classifies exactly for every target up to 16^63, so for all within the limit, and for
      no other. */
  lemma InitialDifficultyExactIff(bits: nat, d: nat)
    requires Decode(bits) > 0
    requires var n := ZeroNibbles(BigEndian(Decode(bits), 32)); d == if n >= 2 then n - 1 else 1
    ensures ExactFor(d, bits) <==> Decode(bits) <= Bound(32, 1)
    ensures Decode(bits) <= POW_LIMIT ==> ExactFor(d, bits)
  {
    PowValues();
    var bytes := BigEndian(Decode(bits), 32);
    ValueOfBigEndian(Decode(bits), 32);
    ZeroNibblesBound(bytes);
    var n := ZeroNibbles(bytes);
    if n >= 2 {
      EasierPrefixIsExact(d, bits);
      BoundDecreases(32, 1, n);
    } else {
      ClassificationExactIff(1, bits);
    }
    assert POW_LIMIT <= Bound(32, 1);
  }

  // ---- the miner ----

  /** pool_leading_zeros_to_target */
  function MinerTarget(n: nat): (t: seq<nat>)
    ensures IsHash(t)
  {
    var zeros := if n < 63 then n else 63;
    if zeros == 0 then seq(32, i => 0xff)
    else
      var bit := 256 - zeros * 4;
      var at := 31 - bit / 8;
      seq(32, i => if i == at then (if bit % 8 == 0 then 1 else 16) else 0)
  }

  method BuildMinerTarget(n: nat) returns (target: array<nat>)
    ensures target[..] == MinerTarget(n)
  {
    var zeros := if n < 63 then n else 63;
    if zeros == 0 {
      target := new nat[32](i => 0xff);
      assert target[..] == MinerTarget(n);
      return;
    }
    var bit := 256 - zeros * 4;
    var at, bitInByte := 31 - bit / 8, bit % 8;
    target := new nat[32](i => 0);
    target[at] := if bitInByte == 0 then 1 else 16;
    assert target[..] == MinerTarget(n);
  }

  lemma OneByteValue(bs: seq<nat>, at: nat)
    requires at < |bs| && forall i :: 0 <= i < |bs| && i != at ==> bs[i] == 0
    ensures Value(bs) == bs[at] * Pow256(|bs| - at - 1)
  {
    SplitAt(bs, at);
    ValueOfZeros(bs[..at]);
    ValueOfZeros(bs[at + 1..]);
  }

  lemma OneByteBound(bs: seq<nat>, d: nat, at: nat)
    requires 1 <= d <= 2 * |bs| && at == (d - 1) / 2
    requires forall i :: 0 <= i < |bs| ==> bs[i] == if i != at then 0 else if d % 2 == 0 then 1 else 16
    ensures Value(bs) == Bound(|bs|, d)
  {
    OneByteValue(bs, at);
    if d % 2 == 0 {
      assert |bs| - at - 1 == |bs| - d / 2;
    } else {
      assert at == d / 2;
    }
  }

  lemma MinerByte(d: nat, at: nat)
    requires 1 <= d <= 63 && at == (d - 1) / 2
    ensures forall i :: 0 <= i < 32 ==> MinerTarget(d)[i] == if i != at then 0 else if d % 2 == 0 then 1 else 16
  {
    var bit := 256 - d * 4;
    if d % 2 == 0 {
      assert bit == 8 * (32 - d / 2);
    } else {
      assert bit == 8 * (31 - d / 2) + 4;
    }
  }

  lemma MinerTargetValue(d: nat)
    requires 1 <= d <= 63
    ensures Value(MinerTarget(d)) == Bound(32, d)
  {
    var at := (d - 1) / 2;
    MinerByte(d, at);
    OneByteBound(MinerTarget(d), d, at);
  }

  /** hash_meets_target: the first differing byte decides; equality does not meet the target. */
  method HashMeetsTarget(hash: array<nat>, target: array<nat>) returns (r: bool)
    requires IsHash(hash[..]) && IsHash(target[..])
    ensures r <==> Value(hash[..]) < Value(target[..])
  {
    for i := 0 to 32
      invariant hash[..i] == target[..i]
    {
      assert hash[..][..i] == hash[..i] && target[..][..i] == target[..i];
      if hash[i] < target[i] {
        FirstDifferenceDecides(hash[..], target[..], i);
        return true;
      }
      if hash[i] > target[i] {
        FirstDifferenceDecides(target[..], hash[..], i);
        return false;
      }
      assert hash[..i + 1] == hash[..i] + [hash[i]] && target[..i + 1] == target[..i] + [target[i]];
    }
    assert hash[..] == target[..];
    return false;
  }

  /** The miner's test accepts exactly the hashes the pool's prefix test accepts for difficulties 1 to 63 and for no
      others. */
  lemma MinerMatchesPoolIff(d: nat)
    ensures (forall h :: IsHash(h) ==> (Value(h) < Value(MinerTarget(d)) <==> HasPrefix(h, d))) <==> 1 <= d <= 63
  {
    if 1 <= d <= 63 {
      MinerTargetValue(d);
      forall h | IsHash(h)
        ensures Value(h) < Value(MinerTarget(d)) <==> HasPrefix(h, d)
      {
        PrefixIff(h, d);
      }
    } else if d == 0 {
      var top := MinerTarget(0);
      assert IsHash(top) && HasPrefix(top, 0);
    } else {
      assert MinerTarget(d) == MinerTarget(63);
      MinerTargetValue(63);
      var h := BigEndian(1, 32);
      PowValues();
      ValueOfBigEndian(1, 32);
      assert IsHash(h) && Bound(32, 63) == 16;
      if d == 64 {
        PrefixIff(h, 64);
      }
    }
  }
}
