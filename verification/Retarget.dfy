/** The DWG3 difficulty rule: average the last 24 targets, scale by the measured timespan, clamp, compact. */
module Retarget {
  import opened Domain
  import opened Bytes
  import opened Compact

  const WINDOW: nat := 24

  /** A degenerate zero target counts as the easiest one. */
  function EffectiveTarget(bits: nat): (t: nat) {
    if Decode(bits) == 0 then POW_LIMIT else Decode(bits)
  }

  function Targets(window: seq<Header>): (ts: seq<nat>)
    ensures |ts| == |window|
    ensures forall i :: 0 <= i < |ts| ==> ts[i] == EffectiveTarget(window[i].bits)
  {
    seq(|window|, i requires 0 <= i < |window| => EffectiveTarget(window[i].bits))
  }

  /** The i-th term of the running floored average (i >= 1). */
  function AverageStep(avg: nat, i: nat, t: nat): (r: nat)
    requires i > 0
  {
    SaturatingAdd(SaturatingMul(avg, i - 1), t) / i
  }

  function Average(ts: seq<nat>): (avg: nat)
    requires |ts| > 0
  {
    if |ts| == 1 then ts[0] else AverageStep(Average(ts[..|ts| - 1]), |ts|, ts[|ts| - 1])
  }

  function TargetSpan(interval: int): (t: int)
    ensures t >= 1
  {
    if interval * WINDOW >= 1 then interval * WINDOW else 1
  }

  function ClampedSpan(measured: int, interval: int): (s: int)
    ensures s >= 1
  {
    var raw := if measured >= 1 then measured else 1;
    var lo, hi := TargetSpan(interval) / 3, TargetSpan(interval) * 3;
    if raw < lo then lo else if raw > hi then hi else raw
  }

  function Scaled(avg: nat, span: nat, targetSpan: nat): (t: nat)
    requires targetSpan > 0
  {
    SaturatingMul(avg, span) / targetSpan
  }

  function Limited(t: nat): (r: nat) {
    if t == 0 then 1 else if t > POW_LIMIT then POW_LIMIT else t
  }

  /** The clamp to a factor four of the previous target, skipped when that is zero. */
  function Stepped(t: nat, prev: nat): (r: nat) {
    if prev == 0 then t else
      var up := SaturatingMul(prev, 4);
      var r := if t > up then up else if t < prev / 4 then prev / 4 else t;
      if r == 0 then 1 else r
  }

  function NextTarget(avg: nat, measured: int, interval: int, prev: nat): (t: nat) {
    Stepped(Limited(Scaled(avg, ClampedSpan(measured, interval), TargetSpan(interval))), prev)
  }

  function WindowTarget(window: seq<Header>, interval: int): (t: nat)
    requires |window| == WINDOW
  {
    NextTarget(Average(Targets(window)),
               window[0].timestamp - window[WINDOW - 1].timestamp,
               interval,
               Decode(window[0].bits))
  }

  /** The bits for the block after `window` (newest header first). */
  function NextBits(window: seq<Header>, interval: int): (bits: nat)
    requires |window| == WINDOW
  {
    Encode(WindowTarget(window, interval))
  }

  predicate InRange(bits: nat) { 0 < Decode(bits) <= POW_LIMIT }

  /** The validator's own check of one target against the one before it. */
  predicate ProgressionOk(prev: nat, current: nat) {
    current != 0
    && (prev == 0 || !((current > prev && current / prev > 4) || (current < prev && prev / current > 4)))
  }

  // ---- the average ----

  function Sum(ts: seq<nat>): (s: nat) {
    if ts == [] then 0 else Sum(ts[..|ts| - 1]) + ts[|ts| - 1]
  }

  lemma StepBounds(avg: nat, i: nat, t: nat, hi: nat)
    requires i > 0 && avg <= hi && t <= hi && i * hi < U256_BOUND
    ensures i * AverageStep(avg, i, t) <= (i - 1) * avg + t < i * AverageStep(avg, i, t) + i
  {
    MulLe(avg, hi, i - 1);
    assert (i - 1) * hi == i * hi - hi;
    var x := avg * (i - 1) + t;
    assert AverageStep(avg, i, t) == x / i;
    QuotientTimes(x, i);
  }

  lemma QuotientTimes(x: nat, i: nat)
    requires i > 0
    ensures i * (x / i) <= x < i * (x / i) + i
  {
  }

  /** The running average stays between the smallest and the largest target of the window. */
  lemma {:induction false} AverageBetween(ts: seq<nat>, lo: nat, hi: nat)
    requires |ts| > 0 && |ts| * hi < U256_BOUND
    requires forall i :: 0 <= i < |ts| ==> lo <= ts[i] <= hi
    ensures lo <= Average(ts) <= hi
  {
    var n := |ts|;
    if n > 1 {
      var front, t := ts[..n - 1], ts[n - 1];
      MulLe(n - 1, n, hi);
      AverageBetween(front, lo, hi);
      StepBounds(Average(front), n, t, hi);
      BetweenOfMultiples(n, Average(front), t, Average(ts), lo, hi);
    }
  }

  lemma BetweenOfMultiples(n: nat, avg: nat, t: nat, a: nat, lo: nat, hi: nat)
    requires n > 1 && lo <= avg <= hi && lo <= t <= hi
    requires n * a <= (n - 1) * avg + t < n * a + n
    ensures lo <= a <= hi
  {
    MulLe(lo, avg, n - 1);
    MulLe(avg, hi, n - 1);
    assert (n - 1) * lo == n * lo - lo && (n - 1) * hi == n * hi - hi;
    assert n * (lo - a) < n && n * (a - hi) <= 0;
    NoBigMultiple(lo - a, n);
    NoBigMultiple(a - hi, n);
  }

  function Triangle(n: nat): (s: nat) { if n == 0 then 0 else Triangle(n - 1) + (n - 1) }

  lemma {:induction false} TriangleClosed(n: nat)
    ensures 2 * Triangle(n) == n * (n - 1)
  {
    if n > 0 {
      TriangleClosed(n - 1);
      assert n * (n - 1) == (n - 1) * (n - 2) + 2 * (n - 1);
    }
  }

  /** Flooring at every step loses at most 0 + 1 + ... + (n-1) of the true sum. */
  lemma {:induction false} AverageShortfall(ts: seq<nat>, hi: nat)
    requires |ts| > 0 && |ts| * hi < U256_BOUND
    requires forall i :: 0 <= i < |ts| ==> ts[i] <= hi
    ensures |ts| * Average(ts) <= Sum(ts) <= |ts| * Average(ts) + Triangle(|ts|)
  {
    var n := |ts|;
    if n == 1 {
      assert ts[..0] == [];
    } else {
      var front, t := ts[..n - 1], ts[n - 1];
      MulLe(n - 1, n, hi);
      AverageShortfall(front, hi);
      AverageBetween(front, 0, hi);
      StepBounds(Average(front), n, t, hi);
    }
  }

  /** For a full window of targets within the limit: at most 276 is lost. */
  lemma WindowShortfall(window: seq<Header>)
    requires |window| == WINDOW
    requires forall i :: 0 <= i < WINDOW ==> Decode(window[i].bits) <= POW_LIMIT
    ensures var ts := Targets(window); WINDOW * Average(ts) <= Sum(ts) <= WINDOW * Average(ts) + 276
  {
    AverageShortfall(Targets(window), POW_LIMIT);
    TriangleClosed(24);
  }

  // ---- scaling ----

  /** Scaling is exact while the product fits in 256 bits, and only ever too small otherwise. */
  lemma ScaledExact(avg: nat, span: nat, targetSpan: nat)
    requires targetSpan > 0
    ensures avg * span < U256_BOUND ==> Scaled(avg, span, targetSpan) == avg * span / targetSpan
    ensures Scaled(avg, span, targetSpan) <= avg * span / targetSpan
  {
    DivMonotone(SaturatingMul(avg, span), avg * span, targetSpan);
  }

  lemma NextTargetMonotone(avg: nat, measured: int, measured': int, interval: int, prev: nat)
    requires measured <= measured' && prev <= POW_LIMIT
    ensures NextTarget(avg, measured, interval, prev) <= NextTarget(avg, measured', interval, prev)
  {
    var s, s' := ClampedSpan(measured, interval), ClampedSpan(measured', interval);
    ScaledMonotone(avg, s, s', TargetSpan(interval));
    LimitedMonotone(Scaled(avg, s, TargetSpan(interval)), Scaled(avg, s', TargetSpan(interval)));
    SteppedMonotone(Limited(Scaled(avg, s, TargetSpan(interval))), Limited(Scaled(avg, s', TargetSpan(interval))),
                    prev);
  }

  lemma ScaledMonotone(avg: nat, s: nat, s': nat, targetSpan: nat)
    requires s <= s' && targetSpan > 0
    ensures Scaled(avg, s, targetSpan) <= Scaled(avg, s', targetSpan)
  {
    MulLe(s, s', avg);
    DivMonotone(SaturatingMul(avg, s), SaturatingMul(avg, s'), targetSpan);
  }

  lemma SteppedMonotone(t: nat, t': nat, prev: nat)
    requires t <= t' && prev <= POW_LIMIT
    ensures Stepped(t, prev) <= Stepped(t', prev)
  {
  }

  lemma LimitedMonotone(t: nat, t': nat)
    requires t <= t'
    ensures Limited(t) <= Limited(t')
  {
  }

  lemma SteppedRange(t: nat, prev: nat)
    requires 0 < t <= POW_LIMIT && prev <= POW_LIMIT
    ensures 0 < Stepped(t, prev) <= POW_LIMIT
    ensures prev > 0 ==> prev / 4 <= Stepped(t, prev) <= 4 * prev
  {
  }

  lemma LimitedRange(t: nat)
    ensures 0 < Limited(t) <= POW_LIMIT
  {
  }

  /** A longer measured span never makes the next target, as compacted, harder. */
  lemma BitsMonotoneInSpan(avg: nat, measured: int, measured': int, interval: int, prev: nat)
    requires measured <= measured' && prev <= POW_LIMIT
    ensures Encode(NextTarget(avg, measured, interval, prev)) <= Encode(NextTarget(avg, measured', interval, prev))
    ensures Decode(Encode(NextTarget(avg, measured, interval, prev)))
            <= Decode(Encode(NextTarget(avg, measured', interval, prev)))
  {
    NextTargetMonotone(avg, measured, measured', interval, prev);
    var x := Limited(Scaled(avg, ClampedSpan(measured', interval), TargetSpan(interval)));
    LimitedRange(Scaled(avg, ClampedSpan(measured', interval), TargetSpan(interval)));
    SteppedRange(x, prev);
    EncodeMonotone(NextTarget(avg, measured, interval, prev), NextTarget(avg, measured', interval, prev));
  }

  // ---- the rule in numbers ----

  /** A header whose bits decode to nothing counts as one at the limit. */
  lemma ZeroCountsAsEasiest(window: seq<Header>)
    requires |window| == 24 && forall i :: 0 <= i < 24 ==> Decode(window[i].bits) == 0
    ensures Average(Targets(window)) == POW_LIMIT
  {
    AverageBetween(Targets(window), POW_LIMIT, POW_LIMIT);
  }

  /** x, or the nearer of the two limits. */
  function Between(lo: int, x: int, hi: int): (r: int) {
    if x < lo then lo else if x > hi then hi else x
  }

  /** The next target is the average scaled by the measured time over 24 intervals, where the time counts as at least a
      third and at most three times 24 intervals, the product as at most 2^256 - 1, the result as at least 1 and at
      most the limit, and the step from the previous target as at most fourfold. */
  lemma NextTargetIs(avg: nat, measured: int, interval: int, prev: nat)
    ensures var t := if interval > 0 then 24 * interval else 1;
      var time := Between(t / 3, if measured < 1 then 1 else measured, 3 * t);
      var wanted := Between(1, Between(0, avg * time, U256_BOUND - 1) / t, POW_LIMIT);
      NextTarget(avg, measured, interval, prev)
      == if prev == 0 then wanted else Between(if prev < 8 then 1 else prev / 4, wanted, 4 * prev)
  {
  }

  lemma Unlimited(avg: nat, measured: int, interval: nat, prev: nat, time: nat, result: nat)
    requires interval > 0 && time == Between(8 * interval, measured, 72 * interval) && avg * time < U256_BOUND
    requires result == avg * time / (24 * interval) && 1 <= result <= POW_LIMIT && prev / 4 <= result <= 4 * prev
    ensures NextTarget(avg, measured, interval, prev) == result
  {
    NextTargetIs(avg, measured, interval, prev);
  }

  /** Where no limit binds: on time nothing changes, three times too slow (or slower) makes the target three times as
      easy, three times too fast (or faster) makes it three times as hard. */
  lemma PaceDecides(avg: nat, measured: int, interval: nat, prev: nat)
    requires interval > 0 && avg * (72 * interval) < U256_BOUND && 3 <= avg && 3 * avg <= POW_LIMIT
    requires prev / 4 <= avg / 3 && 3 * avg <= 4 * prev
    ensures measured == 24 * interval ==> NextTarget(avg, measured, interval, prev) == avg
    ensures measured >= 72 * interval ==> NextTarget(avg, measured, interval, prev) == 3 * avg
    ensures measured <= 8 * interval ==> NextTarget(avg, measured, interval, prev) == avg / 3
  {
    var time := Between(8 * interval, measured, 72 * interval);
    MulLe(time, 72 * interval, avg);
    Scaling(avg, interval);
    if time in {8 * interval, 24 * interval, 72 * interval} {
      Unlimited(avg, measured, interval, prev, time, avg * time / (24 * interval));
    }
  }

  lemma Scaling(avg: nat, interval: nat)
    requires interval > 0
    ensures avg * (24 * interval) / (24 * interval) == avg
    ensures avg * (72 * interval) / (24 * interval) == 3 * avg
    ensures avg * (8 * interval) / (24 * interval) == avg / 3
  {
    ExactQuotient(avg * (24 * interval), avg, 0, 24 * interval);
    assert avg * (72 * interval) == 3 * avg * (24 * interval);
    ExactQuotient(avg * (72 * interval), 3 * avg, 0, 24 * interval);
    Third(avg, interval);
  }

  lemma Third(avg: nat, interval: nat)
    requires interval > 0
    ensures avg * (8 * interval) / (24 * interval) == avg / 3
  {
    var q, r, e := avg / 3, avg % 3, 8 * interval;
    assert avg * e == q * (3 * e) + r * e by {
      assert avg == 3 * q + r;
    }
    MulLe(r, 2, e);
    ExactQuotient(avg * e, q, r * e, 3 * e);
  }

  lemma ExactQuotient(x: nat, q: nat, r: nat, t: nat)
    requires x == q * t + r && r < t
    ensures x / t == q
  {
    QuotientTimes(x, t);
    var d := x / t - q;
    assert d * t < t && -d * t < t;
    NoBigMultiple(d, t);
    NoBigMultiple(-d, t);
  }

  // ---- closure ----

  lemma NextTargetRange(avg: nat, measured: int, interval: int, prev: nat)
    requires prev <= POW_LIMIT
    ensures var t := NextTarget(avg, measured, interval, prev);
            0 < t <= POW_LIMIT && (prev > 0 ==> prev / 4 <= t <= 4 * prev)
  {
    var scaled := Scaled(avg, ClampedSpan(measured, interval), TargetSpan(interval));
    LimitedRange(scaled);
    SteppedRange(Limited(scaled), prev);
  }

  /** What the rule produces decodes to a non-zero target within the limit. */
  lemma RetargetStaysInRange(window: seq<Header>, interval: int)
    requires |window| == WINDOW
    requires Decode(window[0].bits) <= POW_LIMIT
    ensures InRange(NextBits(window, interval))
  {
    NextTargetRange(Average(Targets(window)), window[0].timestamp - window[WINDOW - 1].timestamp,
                    interval, Decode(window[0].bits));
    EncodedInRange(WindowTarget(window, interval));
  }

  lemma EncodedInRange(t: nat)
    requires 0 < t <= POW_LIMIT
    ensures InRange(Encode(t))
  {
    CodecBounds(t);
  }

  /** Compaction costs too little to push a clamped target past the validator's factor four. */
  lemma ClampedPasses(prev: nat, t: nat)
    requires 0 < prev <= POW_LIMIT && prev !in SIX
    requires 0 < t <= POW_LIMIT && prev / 4 <= t <= 4 * prev
    ensures ProgressionOk(prev, Decode(Encode(t)))
  {
    CodecBounds(t);
    UnitSmall(t);
    var d := Decode(Encode(t));
    SmallLoss(prev, t, d, Unit(t));
    ProgressionFromBounds(prev, d);
  }

  lemma ProgressionFromBounds(prev: nat, d: nat)
    requires 0 < prev < 5 * d && d <= 4 * prev
    ensures ProgressionOk(prev, d)
  {
    QuotientAtMost(d, prev, 4);
    QuotientAtMost(prev, d, 4);
  }

  lemma SmallLoss(prev: nat, t: nat, d: nat, unit: nat)
    requires prev !in SIX && 0 < d && prev / 4 <= t
    requires d <= t < d + unit && (unit == 1 || 0x8000 * unit <= t) && (t < SIGN_BIT ==> d == t)
    ensures prev < 5 * d
  {
  }

  lemma QuotientAtMost(a: nat, b: nat, k: nat)
    requires b > 0 && a < (k + 1) * b
    ensures a / b <= k
  {
    var j := a / b - k;
    assert j * b < b;
    NoBigMultiple(j, b);
  }

  /** A window that a path of accepted blocks can end in: every target is in range and every step from one header to
      the next passes the validator's own check. */
  ghost predicate Admissible(window: seq<Header>, prev: nat) {
    && |window| == WINDOW && Decode(window[0].bits) == prev
    && (forall i :: 0 <= i < WINDOW ==> InRange(window[i].bits))
    && (forall i :: 0 <= i < WINDOW - 1 ==> ProgressionOk(Decode(window[i + 1].bits), Decode(window[i].bits)))
  }

  const SIX: set<nat> := {5, 6, 7, 10, 11, 15}

  /** The target below the newest one in a window that fails. */
  function Under(prev: nat): (t: nat) { if prev < 10 then 5 else if prev < 15 then 8 else 11 }

  /** One header of target prev on top of 23 of another. */
  function HardWindow(prev: nat, under: nat): (window: seq<Header>)
    ensures |window| == WINDOW
    ensures forall i :: 0 <= i < WINDOW ==> window[i].bits == Encode(if i == 0 then prev else under)
    ensures forall i :: 0 <= i < WINDOW ==> window[i].timestamp == 0
  {
    seq(WINDOW, i => Header(0, "", "", 0, 0, Encode(if i == 0 then prev else under)))
  }

  lemma SmallIsExact(t: nat)
    requires 0 < t <= 15
    ensures Decode(Encode(t)) == t && InRange(Encode(t))
  {
    CodecBounds(t);
  }

  lemma HardAdmissible(prev: nat, under: nat)
    requires 0 < under <= prev <= 15 && prev <= 4 * under
    ensures Admissible(HardWindow(prev, under), prev)
  {
    SmallIsExact(under);
    SmallIsExact(prev);
    ProgressionFromBounds(under, prev);
    ProgressionFromBounds(under, under);
    var w := HardWindow(prev, under);
    assert forall j :: 0 < j < WINDOW ==> w[j].bits == Encode(under);
  }

  lemma FlatAverage(ts: seq<nat>, first: nat, rest: nat)
    requires |ts| == WINDOW && ts[0] == first && (forall i :: 0 < i < |ts| ==> ts[i] == rest) && rest <= first <= 15
    ensures Average(ts) <= rest
  {
    SumOfRest(ts, first, rest);
    AverageShortfall(ts, 15);
  }

  lemma HardAverage(prev: nat, under: nat)
    requires 0 < under <= prev <= 15
    ensures Average(Targets(HardWindow(prev, under))) <= under
  {
    SmallIsExact(under);
    SmallIsExact(prev);
    FlatAverage(Targets(HardWindow(prev, under)), prev, under);
  }

  lemma QuarterFails(prev: nat)
    requires prev in SIX
    ensures 0 < prev / 4 && prev <= 4 * Under(prev) && 0 < Under(prev) <= prev <= 15 && Under(prev) / 3 <= prev / 4
    ensures !ProgressionOk(prev, prev / 4)
  {
  }

  /** Previous targets on which the clamp and the validator disagree, because prev / 4 is floored. */
  lemma BadPrevious(prev: nat)
    requires prev in SIX
    ensures Admissible(HardWindow(prev, Under(prev)), prev)
    ensures !ProgressionOk(prev, Decode(NextBits(HardWindow(prev, Under(prev)), 60)))
  {
    var under := Under(prev);
    QuarterFails(prev);
    HardAdmissible(prev, under);
    HardAverage(prev, under);
    ShortSpan(Average(Targets(HardWindow(prev, under))), 0, prev, under);
    SmallIsExact(prev / 4);
  }

  /** With blocks coming much too fast a third of the average is asked for, and at least a quarter of the last. */
  lemma ShortSpan(avg: nat, measured: int, prev: nat, under: nat)
    requires avg <= under && measured <= 480 && under / 3 <= prev / 4 && 0 < prev / 4 && prev <= 15
    ensures NextTarget(avg, measured, 60, prev) == prev / 4
  {
    assert ClampedSpan(measured, 60) == 480 && TargetSpan(60) == 1440;
    assert avg * 480 / 1440 == avg / 3;
  }

  lemma {:induction false} SumOfRest(ts: seq<nat>, first: nat, rest: nat)
    requires |ts| > 0 && ts[0] == first && forall i :: 0 < i < |ts| ==> ts[i] == rest
    ensures Sum(ts) == first + (|ts| - 1) * rest
  {
    if |ts| == 1 {
      assert ts[..0] == [];
    } else {
      SumOfRest(ts[..|ts| - 1], first, rest);
    }
  }

  lemma WindowProgresses(w: seq<Header>, interval: int)
    requires |w| == WINDOW && InRange(w[0].bits) && Decode(w[0].bits) !in SIX
    ensures ProgressionOk(Decode(w[0].bits), Decode(NextBits(w, interval)))
  {
    var prev := Decode(w[0].bits);
    NextTargetRange(Average(Targets(w)), w[0].timestamp - w[WINDOW - 1].timestamp, interval, prev);
    ClampedPasses(prev, WindowTarget(w, interval));
  }

  /** The rule's result always satisfies the validator exactly when the previous target is none of six small values. */
  lemma ValidatorAcceptsRetargetIff(prev: nat)
    requires 0 < prev <= POW_LIMIT
    ensures (forall w, interval :: Admissible(w, prev) ==> ProgressionOk(prev, Decode(NextBits(w, interval))))
            <==> prev !in SIX
  {
    if prev in SIX {
      BadPrevious(prev);
    } else {
      forall w: seq<Header>, interval: int | Admissible(w, prev)
        ensures ProgressionOk(prev, Decode(NextBits(w, interval)))
      {
        WindowProgresses(w, interval);
      }
    }
  }
}
