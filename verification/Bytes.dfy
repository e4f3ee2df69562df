/** Big-endian byte strings and the numbers they denote. */
module Bytes {

  function Pow256(n: nat): (r: nat)
    ensures r > 0
  {
    if n == 0 then 1 else 256 * Pow256(n - 1)
  }

  lemma {:induction false} PowAdd(m: nat, n: nat)
    ensures Pow256(m + n) == Pow256(m) * Pow256(n)
  {
    if m != 0 {
      PowAdd(m - 1, n);
      assert m + n - 1 == (m - 1) + n;
    }
  }

  lemma {:induction false} PowMonotone(m: nat, n: nat)
    requires m <= n
    ensures Pow256(m) <= Pow256(n)
  {
    if m < n {
      PowMonotone(m, n - 1);
    }
  }

  lemma MulLe(a: nat, b: nat, c: nat)
    requires a <= b
    ensures a * c <= b * c
  {
  }

  /** Quotient and remainder are the only pair that recombine. */
  lemma DivModUnique(q: int, r: int, d: int)
    requires 0 <= r < d
    ensures (q * d + r) / d == q
    ensures (q * d + r) % d == r
  {
    var x := q * d + r;
    var k := x / d - q;
    assert x == (x / d) * d + x % d;
    assert k * d == r - x % d;
    NoSmallMultiple(k, d);
  }

  lemma NoSmallMultiple(k: int, d: int)
    requires -d < k * d < d
    ensures k == 0
  {
  }

  lemma DivMonotone(a: nat, b: nat, d: nat)
    requires a <= b && d > 0
    ensures a / d <= b / d
  {
    var k := a / d - b / d;
    assert k * d == (a - a % d) - (b - b % d);
    NoBigMultiple(k, d);
  }

  lemma NoBigMultiple(k: int, d: int)
    requires k * d < d && d > 0
    ensures k <= 0
  {
  }

  /** Dividing twice is dividing by the product. */
  lemma DivDiv(t: nat, a: nat, b: nat)
    requires a > 0 && b > 0
    ensures a * b > 0 && (t / a) / b == t / (a * b)
  {
    var q, r := t / a, t % a;
    var q', r' := q / b, q % b;
    assert q == q' * b + r';
    assert t == q * a + r;
    assert q * a == q' * (a * b) + r' * a;
    MulLe(r', b - 1, a);
    assert (b - 1) * a == a * b - a;
    DivModUnique(q', r' * a + r, a * b);
  }

  /** The n low bytes of t, most significant first. */
  function BigEndian(t: nat, n: nat): (bs: seq<nat>)
    ensures |bs| == n && IsBytes(bs)
  {
    if n == 0 then [] else BigEndian(t / 256, n - 1) + [t % 256]
  }

  predicate IsBytes(bs: seq<nat>) {
    forall i :: 0 <= i < |bs| ==> bs[i] < 256
  }

  function Value(bs: seq<nat>): (v: nat) {
    if bs == [] then 0 else Value(bs[..|bs| - 1]) * 256 + bs[|bs| - 1]
  }

  lemma {:induction false} ValueBound(bs: seq<nat>)
    requires IsBytes(bs)
    ensures Value(bs) < Pow256(|bs|)
  {
    if bs != [] {
      ValueBound(bs[..|bs| - 1]);
    }
  }

  /** Reading the bytes of a number gives the number back. */
  lemma {:induction false} ValueOfBigEndian(t: nat, n: nat)
    requires t < Pow256(n)
    ensures Value(BigEndian(t, n)) == t
  {
    if n != 0 {
      ValueOfBigEndian(t / 256, n - 1);
      assert BigEndian(t, n)[..n - 1] == BigEndian(t / 256, n - 1);
    }
  }

  lemma {:induction false} ValueSplit(p: seq<nat>, s: seq<nat>)
    ensures Value(p + s) == Value(p) * Pow256(|s|) + Value(s)
  {
    if s == [] {
      assert p + s == p;
    } else {
      var front, last := s[..|s| - 1], s[|s| - 1];
      ValueSplit(p, front);
      assert (p + s)[..|p + s| - 1] == p + front;
      Regroup(Value(p), Pow256(|front|), Value(front), last);
    }
  }

  lemma Regroup(p: nat, w: nat, f: nat, last: nat)
    ensures (p * w + f) * 256 + last == p * (256 * w) + (f * 256 + last)
  {
  }

  /** Equal-length byte strings compare as their first differing byte does. */
  lemma FirstDifferenceDecides(x: seq<nat>, y: seq<nat>, i: nat)
    requires IsBytes(x) && IsBytes(y) && |x| == |y| && i < |x|
    requires x[..i] == y[..i] && x[i] < y[i]
    ensures Value(x) < Value(y)
  {
    SplitAt(x, i);
    SplitAt(y, i);
    ValueBound(x[i + 1..]);
    MulLe(Value(x[..i + 1]) + 1, Value(y[..i + 1]), Pow256(|x| - i - 1));
  }

  lemma SplitAt(x: seq<nat>, i: nat)
    requires i < |x|
    ensures Value(x[..i + 1]) == Value(x[..i]) * 256 + x[i]
    ensures Value(x) == Value(x[..i + 1]) * Pow256(|x| - i - 1) + Value(x[i + 1..])
  {
    assert x == x[..i + 1] + x[i + 1..];
    ValueSplit(x[..i + 1], x[i + 1..]);
    assert x[..i + 1][..i] == x[..i];
  }

  lemma {:induction false} ValueOfZeros(bs: seq<nat>)
    requires forall i :: 0 <= i < |bs| ==> bs[i] == 0
    ensures Value(bs) == 0
  {
    if bs != [] {
      ValueOfZeros(bs[..|bs| - 1]);
    }
  }

  /** The first non-zero byte fixes the number of significant bytes. */
  lemma LeadingByte(bs: seq<nat>, f: nat)
    requires IsBytes(bs) && f < |bs|
    requires (forall i :: 0 <= i < f ==> bs[i] == 0) && bs[f] != 0
    ensures Pow256(|bs| - f - 1) <= Value(bs) < Pow256(|bs| - f)
    ensures Value(bs) == Value(bs[f..])
  {
    ValueOfZeros(bs[..f]);
    assert bs == bs[..f] + bs[f..];
    ValueSplit(bs[..f], bs[f..]);
    ValueBound(bs[f..]);
    assert Value(bs) >= Pow256(|bs| - f - 1) by {
      SplitAt(bs, f);
      MulLe(1, Value(bs[..f + 1]), Pow256(|bs| - f - 1));
    }
  }

  /** Number of significant bytes. */
  function ByteLen(t: nat): (n: nat)
    ensures t < Pow256(n)
    ensures t > 0 ==> n > 0 && Pow256(n - 1) <= t
    ensures t == 0 ==> n == 0
  {
    if t == 0 then 0 else 1 + ByteLen(t / 256)
  }

  lemma ByteLenUnique(t: nat, n: nat)
    requires n > 0 && Pow256(n - 1) <= t < Pow256(n)
    ensures ByteLen(t) == n
  {
    var m := ByteLen(t);
    if m < n {
      PowMonotone(m, n - 1);
    } else if n < m {
      PowMonotone(n, m - 1);
    }
  }

  const U256_BOUND: nat := 0x1_0000_0000_0000_0000_0000_0000_0000_0000_0000_0000_0000_0000_0000_0000_0000_0000

  function SaturatingAdd(x: nat, y: nat): (z: nat) { if x + y < U256_BOUND then x + y else U256_BOUND - 1 }

  function SaturatingMul(x: nat, y: nat): (z: nat) { if x * y < U256_BOUND then x * y else U256_BOUND - 1 }

  lemma PowValues()
    ensures Pow256(1) == 256 && Pow256(2) == 0x1_0000 && Pow256(3) == 0x100_0000
    ensures Pow256(28) == 0x1_0000_0000_0000_0000_0000_0000_0000_0000_0000_0000_0000_0000_0000_0000
    ensures Pow256(31) == 0x100_0000_0000_0000_0000_0000_0000_0000_0000_0000_0000_0000_0000_0000_0000_0000
    ensures Pow256(32) == U256_BOUND
  {
    PowAdd(1, 1);
    PowAdd(2, 1);
    PowAdd(2, 2);
    PowAdd(4, 4);
    PowAdd(8, 8);
    PowAdd(16, 8);
    PowAdd(24, 4);
    PowAdd(28, 3);
    PowAdd(16, 16);
  }
}
