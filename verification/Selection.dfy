/** Choosing inputs and a fee for a payment: the pool's and the CLI wallet's growing selection,
    and the Chrome wallet's selection from scratch in every round. */
module Selection {
  import opened Domain
  import opened Rewards

  const ROUNDS: nat := 16

  /** The encoded size of the signed transaction of a round, given how many pool entries it spends and its change. */
  type SizeOf = (nat, nat, nat) -> nat

  /** The payment of that round, which spends the first `inputs` entries of the pool. */
  datatype Outcome = Built(round: nat, inputs: nat, fee: nat, change: nat) | Insufficient | NotConverged

  function PrefixSum(pool: seq<nat>, k: nat): (s: nat)
    requires k <= |pool|
  {
    if k == 0 then 0 else PrefixSum(pool, k - 1) + pool[k - 1]
  }

  /** The shortest prefix of the pool worth at least `need`. */
  ghost predicate ShortestCover(pool: seq<nat>, need: nat, k: nat) {
    k <= |pool| && PrefixSum(pool, k) >= need && forall j :: 0 <= j < k ==> PrefixSum(pool, j) < need
  }

  function Cover(pool: seq<nat>, need: nat, k: nat): (r: Option<nat>)
    requires k <= |pool|
    decreases |pool| - k
  {
    if PrefixSum(pool, k) >= need then Some(k)
    else if k == |pool| then None
    else Cover(pool, need, k + 1)
  }

  lemma {:induction false} CoverIsShortest(pool: seq<nat>, need: nat, k: nat)
    requires k <= |pool| && forall j :: 0 <= j < k ==> PrefixSum(pool, j) < need
    ensures match Cover(pool, need, k)
      case Some(n) => ShortestCover(pool, need, n)
      case None => PrefixSum(pool, |pool|) < need
    decreases |pool| - k
  {
    if PrefixSum(pool, k) < need && k < |pool| {
      CoverIsShortest(pool, need, k + 1);
    }
  }

  /** Starting later makes no difference as long as nothing skipped would have covered. */
  lemma {:induction false} CoverFromHere(pool: seq<nat>, need: nat, k: nat)
    requires k <= |pool| && forall j :: 0 <= j < k ==> PrefixSum(pool, j) < need
    ensures Cover(pool, need, 0) == Cover(pool, need, k)
  {
    if k > 0 {
      CoverFromHere(pool, need, k - 1);
    }
  }

  /** The sequence of fees both kinds of wallet go through: in each round the shortest cover of amount plus fee,
      then the fee its size asks for, until that is no more than the fee already included. */
  function Converge(pool: seq<nat>, amount: nat, size: SizeOf, round: nat, fee: nat): (r: Outcome)
    decreases ROUNDS - round, |pool|
  {
    if round >= ROUNDS then NotConverged
    else
      match Cover(pool, amount + fee, 0)
      case None => Insufficient
      case Some(k) =>
        CoverIsShortest(pool, amount + fee, 0);
        var change := PrefixSum(pool, k) - amount - fee;
        var asked := DefaultFee(size(round, k, change));
        if asked <= fee then Built(round, k, fee, change) else Converge(pool, amount, size, round + 1, asked)
  }

  lemma RoundStep(pool: seq<nat>, amount: nat, size: SizeOf, round: nat, fee: nat, k: nat)
    requires round < ROUNDS && Cover(pool, amount + fee, 0) == Some(k)
    requires k <= |pool| && PrefixSum(pool, k) >= amount + fee
    ensures var change := PrefixSum(pool, k) - amount - fee;
      var asked := DefaultFee(size(round, k, change));
      Converge(pool, amount, size, round, fee)
      == if asked <= fee then Built(round, k, fee, change) else Converge(pool, amount, size, round + 1, asked)
  {
  }

  /** The first `cursor` entries are selected, they are worth `sum`, and no shorter prefix covers `need`. */
  ghost predicate Skipped(pool: seq<nat>, need: nat, sum: nat, cursor: nat) {
    && cursor <= |pool| && sum == PrefixSum(pool, cursor)
    && forall j :: 0 <= j < cursor ==> PrefixSum(pool, j) < need
  }

  /** Select further entries until `need` is covered or the pool is used up. */
  method Grow(pool: seq<nat>, need: nat, sum: nat, cursor: nat) returns (covered: bool, sum': nat, cursor': nat)
    requires Skipped(pool, need, sum, cursor)
    ensures Skipped(pool, need, sum', cursor')
    ensures Cover(pool, need, 0) == if covered then Some(cursor') else None
    ensures covered ==> sum' >= need
  {
    sum', cursor' := sum, cursor;
    while sum' < need
      invariant Skipped(pool, need, sum', cursor')
      decreases |pool| - cursor'
    {
      if cursor' >= |pool| {
        CoverFromHere(pool, need, cursor');
        return false, sum', cursor';
      }
      sum', cursor' := sum' + pool[cursor'], cursor' + 1;
    }
    CoverFromHere(pool, need, cursor');
    covered := true;
  }

  /** build_payout_tx, and the CLI wallet's send: keep what is selected and add to it when the fee grows. */
  method SelectGrowing(pool: seq<nat>, amount: nat, size: SizeOf) returns (r: Outcome)
    ensures r == Converge(pool, amount, size, 0, 0)
  {
    var sum: nat, cursor: nat := 0, 0;
    var enough;
    enough, sum, cursor := Grow(pool, amount, sum, cursor);
    if !enough {
      return Insufficient;
    }
    var fee: nat := 0;
    for round := 0 to ROUNDS
      invariant Skipped(pool, amount + fee, sum, cursor)
      invariant Converge(pool, amount, size, 0, 0) == Converge(pool, amount, size, round, fee)
    {
      var covered;
      covered, sum, cursor := Grow(pool, amount + fee, sum, cursor);
      if !covered {
        return Insufficient;
      }
      RoundStep(pool, amount, size, round, fee, cursor);
      var change := sum - amount - fee;
      var asked := DefaultFee(size(round, cursor, change));
      if asked <= fee {
        return Built(round, cursor, fee, change);
      }
      fee := asked;
    }
    return NotConverged;
  }

  /** The Chrome wallet's send: forget the selection and start over whenever the fee grows. */
  method SelectRestarting(pool: seq<nat>, amount: nat, size: SizeOf) returns (r: Outcome)
    ensures r == Converge(pool, amount, size, 0, 0)
  {
    var fee: nat, sum: nat, cursor: nat := 0, 0, 0;
    for round := 0 to ROUNDS
      invariant sum == 0 && cursor == 0 && Skipped(pool, amount + fee, sum, cursor)
      invariant Converge(pool, amount, size, 0, 0) == Converge(pool, amount, size, round, fee)
    {
      var covered;
      covered, sum, cursor := Grow(pool, amount + fee, sum, cursor);
      if !covered {
        return Insufficient;
      }
      RoundStep(pool, amount, size, round, fee, cursor);
      var change := sum - amount - fee;
      var asked := DefaultFee(size(round, cursor, change));
      if asked > fee {
        fee, sum, cursor := asked, 0, 0;
        continue;
      }
      return Built(round, cursor, fee, change);
    }
    return NotConverged;
  }

  /** What a built payment satisfies: the shortest prefix covering amount and fee, value in equal to value out,
      and a fee that meets the default for the size of the very transaction built, and so the validator's minimum. */
  lemma {:induction false} BuiltIsSound(pool: seq<nat>, amount: nat, size: SizeOf, round: nat, fee: nat)
    requires Converge(pool, amount, size, round, fee).Built?
    ensures var r := Converge(pool, amount, size, round, fee);
      && ShortestCover(pool, amount + r.fee, r.inputs)
      && PrefixSum(pool, r.inputs) == amount + r.change + r.fee
      && r.fee >= fee && round <= r.round < ROUNDS
      && var bytes := size(r.round, r.inputs, r.change);
         r.fee >= 100_000_000_000_000 + 300_000_000_000 * bytes && r.fee >= MinFee(bytes)
    decreases ROUNDS - round
  {
    CoverIsShortest(pool, amount + fee, 0);
    var k := Cover(pool, amount + fee, 0).value;
    var change := PrefixSum(pool, k) - amount - fee;
    if DefaultFee(size(round, k, change)) > fee {
      BuiltIsSound(pool, amount, size, round + 1, DefaultFee(size(round, k, change)));
    }
  }

  /** A payment is refused for lack of funds only when the whole pool cannot cover the amount and a fee that some
      candidate transaction asked for. */
  lemma {:induction false} InsufficientIsReal(pool: seq<nat>, amount: nat, size: SizeOf, round: nat, fee: nat)
    requires Converge(pool, amount, size, round, fee).Insufficient?
    ensures PrefixSum(pool, |pool|) < amount + fee
      || exists n: nat, k: nat, change: nat :: round <= n < ROUNDS && k <= |pool|
           && PrefixSum(pool, |pool|) < amount + DefaultFee(size(n, k, change))
    decreases ROUNDS - round
  {
    CoverIsShortest(pool, amount + fee, 0);
    if Cover(pool, amount + fee, 0).Some? {
      var k := Cover(pool, amount + fee, 0).value;
      var change := PrefixSum(pool, k) - amount - fee;
      InsufficientIsReal(pool, amount, size, round + 1, DefaultFee(size(round, k, change)));
      if PrefixSum(pool, |pool|) < amount + DefaultFee(size(round, k, change)) {
        assert round <= round < ROUNDS && k <= |pool|;
      }
    }
  }

  // ---- when a payment is built ----

  /** Sizes that depend on nothing but the number of inputs. */
  function ByInputs(g: nat -> nat): (size: SizeOf) { (round: nat, k: nat, change: nat) => g(k) }

  ghost predicate NeverShrinks(g: nat -> nat) { forall a: nat, b: nat :: a <= b ==> g(a) <= g(b) }

  /** The pool covers the amount and the fee of a transaction that spends all of it. */
  ghost predicate Affordable(pool: seq<nat>, amount: nat, g: nat -> nat) {
    PrefixSum(pool, |pool|) >= amount + DefaultFee(g(|pool|))
  }

  lemma DefaultFeeMonotone(a: nat, b: nat)
    requires a <= b
    ensures DefaultFee(a) <= DefaultFee(b)
  {
  }

  lemma CoverExists(pool: seq<nat>, amount: nat, g: nat -> nat, j: nat)
    requires Affordable(pool, amount, g) && NeverShrinks(g) && j <= |pool|
    ensures Cover(pool, amount + DefaultFee(g(j)), 0).Some?
  {
    DefaultFeeMonotone(g(j), g(|pool|));
    CoverIsShortest(pool, amount + DefaultFee(g(j)), 0);
  }

  /** Each round that asks for more has more inputs than the one before. */
  lemma {:induction false} BuiltInTime(pool: seq<nat>, amount: nat, g: nat -> nat, round: nat, j: nat)
    requires NeverShrinks(g) && Affordable(pool, amount, g) && j <= |pool|
    requires round + |pool| - j < 16 && forall i :: 0 <= i < j ==> PrefixSum(pool, i) < amount + DefaultFee(g(j))
    ensures Converge(pool, amount, ByInputs(g), round, DefaultFee(g(j))).Built?
    decreases |pool| - j
  {
    var fee := DefaultFee(g(j));
    CoverExists(pool, amount, g, j);
    CoverIsShortest(pool, amount + fee, 0);
    var k := Cover(pool, amount + fee, 0).value;
    RoundStep(pool, amount, ByInputs(g), round, fee, k);
    if k != j && DefaultFee(g(k)) > fee {
      BuiltInTime(pool, amount, g, round + 1, k);
    }
  }

  lemma BuiltFromStart(pool: seq<nat>, amount: nat, g: nat -> nat)
    requires NeverShrinks(g) && Affordable(pool, amount, g) && amount > 0 && |pool| <= 15
    ensures Converge(pool, amount, ByInputs(g), 0, 0).Built?
  {
    CoverIsShortest(pool, amount + 0, 0);
    var k := Cover(pool, amount + 0, 0).value;
    RoundStep(pool, amount, ByInputs(g), 0, 0, k);
    BuiltInTime(pool, amount, g, 1, k);
  }

  /** A pool in which every fee asked for needs exactly one more input. */
  function Stubborn(n: nat): (pool: seq<nat>)
    ensures |pool| == n && forall i :: 0 <= i < n ==> pool[i] == StubbornEntry(n, i)
  {
    seq(n, i requires 0 <= i < n => StubbornEntry(n, i))
  }

  function StubbornEntry(n: nat, i: nat): (value: nat) {
    if i == 0 then 1
    else if i == 1 then DefaultFee(1)
    else if i == n - 1 then 2 * DEFAULT_FEE_PER_BYTE
    else DEFAULT_FEE_PER_BYTE
  }

  lemma {:induction false} StubbornSum(n: nat, k: nat)
    requires 3 <= n && k <= n
    ensures var sum := PrefixSum(Stubborn(n), k);
      && (k == 0 ==> sum == 0) && (k == 1 ==> sum == 1)
      && (2 <= k < n ==> sum == 1 + DefaultFee(k - 1)) && (k == n ==> sum >= 1 + DefaultFee(n))
  {
    if k > 0 {
      StubbornSum(n, k - 1);
    }
  }

  lemma StubbornCover(n: nat, round: nat, fee: nat)
    requires 16 <= n && round < 16 && fee == if round == 0 then 0 else DefaultFee(round)
    ensures Cover(Stubborn(n), 1 + fee, 0) == Some(round + 1)
  {
    var pool := Stubborn(n);
    forall j | 0 <= j <= round
      ensures PrefixSum(pool, j) < 1 + fee
    {
      StubbornSum(n, j);
      if j >= 2 {
        DefaultFeeMonotone(j - 1, round);
      }
    }
    StubbornSum(n, round + 1);
    CoverFromHere(pool, 1 + fee, round + 1);
  }

  lemma {:induction false} StubbornNeverBuilt(n: nat, round: nat, fee: nat)
    requires 16 <= n && round <= 16 && fee == if round == 0 then 0 else DefaultFee(round)
    ensures Converge(Stubborn(n), 1, ByInputs(k => k), round, fee) == NotConverged
    decreases 16 - round
  {
    if round < 16 {
      StubbornCover(n, round, fee);
      StubbornSum(n, round + 1);
      RoundStep(Stubborn(n), 1, ByInputs(k => k), round, fee, round + 1);
      StubbornNeverBuilt(n, round + 1, DefaultFee(round + 1));
    }
  }

  /** Where the size depends on the number of inputs alone, sixteen rounds are enough to build every payment that the
      pool can afford exactly for pools of up to fifteen entries. */
  lemma BuiltIff(n: nat)
    ensures (forall pool: seq<nat>, amount: nat, g: nat -> nat ::
               |pool| == n && amount > 0 && NeverShrinks(g) && Affordable(pool, amount, g)
               ==> Converge(pool, amount, ByInputs(g), 0, 0).Built?)
            <==> n <= 15
  {
    if n <= 15 {
      forall pool: seq<nat>, amount: nat, g: nat -> nat
        | |pool| == n && amount > 0 && NeverShrinks(g) && Affordable(pool, amount, g)
        ensures Converge(pool, amount, ByInputs(g), 0, 0).Built?
      {
        BuiltFromStart(pool, amount, g);
      }
    } else {
      StubbornSum(n, n);
      StubbornNeverBuilt(n, 0, 0);
      assert Affordable(Stubborn(n), 1, k => k) && NeverShrinks(k => k);
    }
  }
}
