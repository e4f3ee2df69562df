/** Block rewards, the supply they add up to, and the fee formulas. */
module Rewards {

  const RAM_PER_ASRM: nat := 1_000_000_000_000_000_000
  const INITIAL_REWARD: nat := 8 * RAM_PER_ASRM
  const HALVING_INTERVAL: nat := 210_000
  const U32_BOUND: nat := 0x1_0000_0000
  const MAX_SUPPLY: nat := 42_000_000 * RAM_PER_ASRM

  const BASE_MIN_FEE: nat := 100_000_000_000_000
  const MIN_FEE_PER_BYTE: nat := 200_000_000_000
  const DEFAULT_FEE_PER_BYTE: nat := 300_000_000_000

  function MinFee(size: nat): (fee: nat) { BASE_MIN_FEE + MIN_FEE_PER_BYTE * size }

  function DefaultFee(size: nat): (fee: nat)
    ensures fee >= MinFee(size)
  {
    BASE_MIN_FEE + DEFAULT_FEE_PER_BYTE * size
  }

  /** x >> n. */
  function ShiftRight(x: nat, n: nat): (r: nat) {
    if n == 0 then x else ShiftRight(x, n - 1) / 2
  }

  /** The reward after a number of halvings; after 33 of them the schedule pays nothing. */
  function RewardAfter(halvings: nat): (r: nat) {
    if halvings >= 33 then 0 else ShiftRight(INITIAL_REWARD, halvings)
  }

  /** n as u32: the low 32 bits. */
  function Cut32(n: nat): (r: nat) {
    if n < U32_BOUND then n else Cut32(n - U32_BOUND)
  }

  lemma {:induction false} Cut32IsRemainder(n: nat)
    ensures Cut32(n) == n % U32_BOUND
  {
    if n >= U32_BOUND {
      Cut32IsRemainder(n - U32_BOUND);
    }
  }

  /** The reward of one halving era; the era number is cut to 32 bits. */
  function EraReward(era: nat): (r: nat) { RewardAfter(Cut32(era)) }

  function BlockReward(height: nat): (r: nat) { EraReward(height / HALVING_INTERVAL) }

  /** All rewards of the first n heights. */
  function Issued(n: nat): (s: nat) {
    if n == 0 then 0 else Issued(n - 1) + BlockReward(n - 1)
  }

  function EraSum(eras: nat): (s: nat) {
    if eras == 0 then 0 else EraSum(eras - 1) + EraReward(eras - 1)
  }

  /** r copies of x added up. */
  function Repeat(x: nat, r: nat): (s: nat) {
    if r == 0 then 0 else Repeat(x, r - 1) + x
  }

  lemma {:induction false} RepeatIsProduct(x: nat, r: nat)
    ensures Repeat(x, r) == r * x
  {
    if r > 0 {
      RepeatIsProduct(x, r - 1);
    }
  }

  lemma {:induction false} IssuedWithinEra(era: nat, r: nat)
    requires r <= HALVING_INTERVAL
    ensures Issued(HALVING_INTERVAL * era + r) == Issued(HALVING_INTERVAL * era) + Repeat(EraReward(era), r)
  {
    if r > 0 {
      IssuedWithinEra(era, r - 1);
      WithinEra(era, r - 1);
    }
  }

  lemma WithinEra(era: nat, r: nat)
    requires r < HALVING_INTERVAL
    ensures Issued(HALVING_INTERVAL * era + r + 1) == Issued(HALVING_INTERVAL * era + r) + EraReward(era)
  {
    assert (HALVING_INTERVAL * era + r) / HALVING_INTERVAL == era;
  }

  lemma {:induction false} IssuedByEras(era: nat)
    ensures Issued(HALVING_INTERVAL * era) == HALVING_INTERVAL * EraSum(era)
  {
    if era > 0 {
      IssuedByEras(era - 1);
      IssuedWithinEra(era - 1, HALVING_INTERVAL);
      RepeatIsProduct(EraReward(era - 1), HALVING_INTERVAL);
      assert HALVING_INTERVAL * era == HALVING_INTERVAL * (era - 1) + HALVING_INTERVAL;
    }
  }

  lemma {:induction false} IssuedMonotone(m: nat, n: nat)
    requires m <= n
    ensures Issued(m) <= Issued(n)
    decreases n
  {
    if m < n {
      IssuedMonotone(m, n - 1);
    }
  }

  /** The sum of the 33 paying eras. */
  const PAYING_ERAS: nat := 15_999_999_998_137_354_845

  function HalvingSum(x: nat, n: nat): (s: nat) {
    if n == 0 then 0 else x + HalvingSum(x / 2, n - 1)
  }

  lemma {:induction false} EraSumFrom(k: nat, n: nat)
    requires k <= n <= 33
    ensures EraSum(n) == EraSum(k) + HalvingSum(ShiftRight(INITIAL_REWARD, k), n - k)
    decreases n - k
  {
    if k < n {
      EraSumFrom(k + 1, n);
      EraRewardEarly(k);
    }
  }

  lemma EraRewardEarly(k: nat)
    requires k < 33
    ensures EraReward(k) == ShiftRight(INITIAL_REWARD, k)
  {
  }

  lemma PayingEras(n: nat)
    requires n == 33
    ensures EraSum(n) == PAYING_ERAS
  {
    EraSumFrom(0, n);
    HalvingValue();
  }

  lemma HalvingValue()
    ensures HalvingSum(INITIAL_REWARD, 33) == PAYING_ERAS
  {
    HalvingTail();
    assert HalvingSum(1_953_125_000_000_000, 21) == 3_906_248_137_354_845;
    assert HalvingSum(31_250_000_000_000_000, 25) == 62_499_998_137_354_845;
    assert HalvingSum(500_000_000_000_000_000, 29) == 999_999_998_137_354_845;
    assert HalvingSum(8_000_000_000_000_000_000, 33) == 15_999_999_998_137_354_845;
  }

  lemma HalvingTail()
    ensures HalvingSum(122_070_312_500_000, 17) == 244_138_762_354_845
  {
    assert HalvingSum(14_901_161_193, 4) == 27_939_677_236;
    assert HalvingSum(238_418_579_101, 8) == 474_974_513_049;
    assert HalvingSum(3_814_697_265_625, 12) == 7_627_531_886_095;
    assert HalvingSum(122_070_312_500_000, 17) == 244_138_762_354_845;
  }

  lemma {:induction false} UnpaidTail(m: nat, n: nat)
    requires m <= n && forall k :: m <= k < n ==> EraReward(k) == 0
    ensures EraSum(n) == EraSum(m)
    decreases n
  {
    if m < n {
      UnpaidTail(m, n - 1);
      assert EraReward(n - 1) == 0;
    }
  }

  lemma FirstCycle(eras: nat)
    requires 33 <= eras <= U32_BOUND
    ensures EraSum(eras) == PAYING_ERAS
  {
    var m := 33;
    PayingEras(m);
    forall k | m <= k < eras
      ensures EraReward(k) == 0
    {
      LateEra(k);
    }
    UnpaidTail(m, eras);
  }

  lemma LateEra(era: nat)
    requires 33 <= era < U32_BOUND
    ensures EraReward(era) == 0
  {
  }

  lemma EraPeriod(era: nat)
    ensures EraReward(U32_BOUND + era) == EraReward(era)
  {
    assert Cut32(U32_BOUND + era) == Cut32(era);
  }

  lemma {:induction false} CyclesRepeat(eras: nat)
    ensures EraSum(U32_BOUND + eras) == PAYING_ERAS + EraSum(eras)
  {
    if eras == 0 {
      FirstCycle(U32_BOUND);
    } else {
      CyclesRepeat(eras - 1);
      assert U32_BOUND + eras - 1 == U32_BOUND + (eras - 1);
      EraPeriod(eras - 1);
    }
  }

  lemma {:induction false} ManyCycles(c: nat, eras: nat)
    ensures EraSum(c * U32_BOUND + eras) == c * PAYING_ERAS + EraSum(eras)
  {
    if c > 0 {
      ManyCycles(c - 1, eras);
      CyclesRepeat((c - 1) * U32_BOUND + eras);
      assert U32_BOUND + ((c - 1) * U32_BOUND + eras) == c * U32_BOUND + eras;
    }
  }

  /** Below the 32-bit era limit everything ever issued stays under twice the first era's rewards. */
  lemma IssuedBounded(n: nat)
    requires n <= HALVING_INTERVAL * U32_BOUND
    ensures Issued(n) < 2 * HALVING_INTERVAL * INITIAL_REWARD == 3_360_000 * RAM_PER_ASRM < MAX_SUPPLY
  {
    var full := HALVING_INTERVAL * U32_BOUND;
    IssuedMonotone(n, full);
    IssuedByEras(U32_BOUND);
    FirstCycle(U32_BOUND);
  }

  /** The number of heights whose rewards together respect the maximum supply: after the era
      number wraps the schedule starts over, and the thirteenth pass breaks the cap. */
  const CAPPED_HEIGHTS: nat := 12 * HALVING_INTERVAL * U32_BOUND + HALVING_INTERVAL

  lemma IssuedAtCap()
    ensures Issued(CAPPED_HEIGHTS) <= MAX_SUPPLY < Issued(CAPPED_HEIGHTS + 1)
  {
    var era := 12 * U32_BOUND + 1;
    IssuedByEras(era);
    assert CAPPED_HEIGHTS == HALVING_INTERVAL * era;
    ManyCycles(12, 1);
    assert EraSum(1) == INITIAL_REWARD;
    assert BlockReward(CAPPED_HEIGHTS) == INITIAL_REWARD / 2 by {
      assert CAPPED_HEIGHTS / HALVING_INTERVAL == era;
      Cut32IsRemainder(era);
      assert era % U32_BOUND == 1;
      assert ShiftRight(INITIAL_REWARD, 1) == INITIAL_REWARD / 2;
    }
  }

  /** The advertised maximum supply holds for exactly this many heights. */
  lemma SupplyCapIff(n: nat)
    ensures Issued(n) <= MAX_SUPPLY <==> n <= CAPPED_HEIGHTS
  {
    IssuedAtCap();
    if n <= CAPPED_HEIGHTS {
      IssuedMonotone(n, CAPPED_HEIGHTS);
    } else {
      IssuedMonotone(CAPPED_HEIGHTS + 1, n);
    }
  }
}
