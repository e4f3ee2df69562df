/** The transaction pass of block insertion, against the reference rules of the ledger. */
module TxRules {
  import opened Domain
  import opened Bytes
  import opened Rewards
  import opened Ledger

  datatype Reject =
    | HeaderHashMismatch | CheckpointViolation | InvalidPow | DifficultyMismatch | PreviousNotFound
    | ForkDetected | TooFarInFuture | TargetJump | MerkleMismatch | MedianTimePast
    | EmptyBlock | CoinbaseHasInputs | BadSignature | DuplicateInput | UtxoNotFound | BadPubkey | NotOwner
    | OutputsExceedInputs | FeeTooLow | ExcessReward | Overflow
    | TipHeaderMissing | UnknownBlock | NoCommonAncestor | ReorgTooDeep | SpentTxMissing

  datatype Result<+T> = Ok(value: T) | Err(error: Reject) {
    predicate IsFailure() { Err? }
    function PropagateFailure<U>(): Result<U>
      requires Err?
    {
      Err(error)
    }
    function Extract(): T
      requires Ok?
    {
      value
    }
  }

  /** Addition of two 256-bit numbers; the source aborts on overflow. */
  function Add(a: nat, b: nat): (r: Result<nat>) {
    if a + b < U256_BOUND then Ok(a + b) else Err(Overflow)
  }

  /** `view` is `u:` as the batch so far would leave it; `made` the outputs of this block still unspent in it. */
  datatype Progress = Progress(view: UtxoSet, made: UtxoSet, fees: nat)

  datatype Intake = Intake(view: UtxoSet, made: UtxoSet, sum: nat)

  predicate Owns(env: Env, inp: Input, coin: Utxo) {
    env.addressOf(inp.pubkey).Some? && env.lower(env.addressOf(inp.pubkey).value) == env.lower(coin.to)
  }

  predicate Verifies(env: Env, tx: Tx) { tx.inputs == [] || env.signaturesVerify(tx) }

  function TakeInput(env: Env, u: UtxoSet, taken: Intake, inp: Input): (r: Result<Intake>) {
    var p := inp.point;
    if p !in taken.made && p !in u then Err(UtxoNotFound)
    else
      var coin := if p in taken.made then taken.made[p] else u[p];
      if env.addressOf(inp.pubkey).None? then Err(BadPubkey)
      else if !Owns(env, inp, coin) then Err(NotOwner)
      else if Add(taken.sum, coin.amount).Err? then Err(Overflow)
      else if p in taken.made then Ok(Intake(taken.view, taken.made - {p}, taken.sum + coin.amount))
      else Ok(Intake(taken.view - {p}, taken.made, taken.sum + coin.amount))
  }

  /** Resolve inputs in order: outputs made earlier in the block first, then the committed set. */
  function TakeInputs(env: Env, u: UtxoSet, from: Progress, inputs: seq<Input>): (r: Result<Intake>) {
    if inputs == [] then Ok(Intake(from.view, from.made, 0))
    else
      var before, inp := inputs[..|inputs| - 1], inputs[|inputs| - 1];
      var taken :- TakeInputs(env, u, from, before);
      if PointIn(inp.point, before) then Err(DuplicateInput) else TakeInput(env, u, taken, inp)
  }

  function CheckTx(env: Env, u: UtxoSet, from: Progress, tx: Tx): (r: Result<Progress>) {
    if !Verifies(env, tx) then Err(BadSignature)
    else
      var taken :- TakeInputs(env, u, from, tx.inputs);
      var paid := OutSum(tx.outputs);
      if paid >= U256_BOUND then Err(Overflow)
      else if paid > taken.sum then Err(OutputsExceedInputs)
      else
        var fees :- Add(from.fees, taken.sum - paid);
        if taken.sum - paid < MinFee(env.encodedSize(tx)) then Err(FeeTooLow)
        else Ok(Progress(taken.view + Coins(env, tx), taken.made + Coins(env, tx), fees))
  }

  function CheckTxs(env: Env, u: UtxoSet, txs: seq<Tx>): (r: Result<Progress>)
    requires |txs| > 0
  {
    if |txs| == 1 then
      if !Verifies(env, txs[0]) then Err(BadSignature)
      else Ok(Progress(u + Coins(env, txs[0]), Coins(env, txs[0]), 0))
    else
      var from :- CheckTxs(env, u, txs[..|txs| - 1]);
      CheckTx(env, u, from, txs[|txs| - 1])
  }

  /** Step 9 of insertion: the new `u:` key space, or the reason for refusing the block. */
  function CheckBlock(env: Env, u: UtxoSet, b: Block): (r: Result<UtxoSet>) {
    if b.txs == [] then Err(EmptyBlock)
    else if b.txs[0].inputs != [] then Err(CoinbaseHasInputs)
    else
      var done :- CheckTxs(env, u, b.txs);
      var minted := OutSum(b.txs[0].outputs);
      if minted >= U256_BOUND then Err(Overflow)
      else
        var allowed :- Add(BlockReward(b.header.index), done.fees);
        if minted > allowed then Err(ExcessReward) else Ok(done.view)
  }

  // ---- the state the pass is in ----

  function AllSpent(txs: seq<Tx>): (ps: set<OutPoint>) {
    if txs == [] then {} else AllSpent(txs[..|txs| - 1]) + Spent(txs[|txs| - 1])
  }

  function AllCoins(env: Env, txs: seq<Tx>): (u: UtxoSet) {
    if txs == [] then map[] else AllCoins(env, txs[..|txs| - 1]) + Coins(env, txs[|txs| - 1])
  }

  /** No transaction of the list reuses a txid of the list or of an unspent output. */
  ghost predicate FreshTxids(u: UtxoSet, txs: seq<Tx>) {
    && (forall i, j :: 0 <= i < j < |txs| ==> txs[i].txid != txs[j].txid)
    && (forall i, p :: 0 <= i < |txs| && p in u ==> p.txid != txs[i].txid)
  }

  /** No outpoint is consumed by two transactions of the list. */
  ghost predicate SpentOnce(txs: seq<Tx>) {
    forall i, j :: 0 <= i < j < |txs| ==> Spent(txs[i]) !! Spent(txs[j])
  }

  /** Some transaction of the list spends an output made in the list. */
  ghost predicate ChainedSpend(txs: seq<Tx>) {
    exists i, j, p :: 0 <= i < |txs| && 0 <= j < |txs| && p in Points(txs[i]) && p in Spent(txs[j])
  }

  lemma {:induction false} AllCoinsKeys(env: Env, txs: seq<Tx>, p: OutPoint)
    ensures p in AllCoins(env, txs) <==> exists i :: 0 <= i < |txs| && p in Points(txs[i])
  {
    if txs != [] {
      var front := txs[..|txs| - 1];
      AllCoinsKeys(env, front, p);
      assert forall i :: 0 <= i < |front| ==> front[i] == txs[i];
    }
  }

  lemma {:induction false} AllSpentKeys(txs: seq<Tx>, p: OutPoint)
    ensures p in AllSpent(txs) <==> exists i :: 0 <= i < |txs| && p in Spent(txs[i])
  {
    if txs != [] {
      var front := txs[..|txs| - 1];
      AllSpentKeys(front, p);
      assert forall i :: 0 <= i < |front| ==> front[i] == txs[i];
    }
  }

  lemma LastIsFresh(env: Env, u: UtxoSet, txs: seq<Tx>)
    requires txs != [] && FreshTxids(u, txs)
    ensures FreshTxids(u, txs[..|txs| - 1])
    ensures Points(txs[|txs| - 1]) !! u.Keys
    ensures Points(txs[|txs| - 1]) !! AllCoins(env, txs[..|txs| - 1]).Keys
    ensures u.Keys !! AllCoins(env, txs[..|txs| - 1]).Keys
  {
    var front, tx := txs[..|txs| - 1], txs[|txs| - 1];
    forall p | p in AllCoins(env, front)
      ensures p !in u && p !in Points(tx)
    {
      AllCoinsKeys(env, front, p);
    }
  }

  lemma {:induction false} TakenInputs(env: Env, u: UtxoSet, from: Progress, inputs: seq<Input>)
    requires TakeInputs(env, u, from, inputs).Ok?
    ensures var r, ps := TakeInputs(env, u, from, inputs).value, InputPoints(inputs);
      && r.made == from.made - ps
      && r.view == from.view - (ps - from.made.Keys)
      && ps <= from.made.Keys + u.Keys
  {
    if inputs == [] {
      assert from.made - {} == from.made && from.view - {} == from.view;
    } else {
      var before, inp := inputs[..|inputs| - 1], inputs[|inputs| - 1];
      TakenInputs(env, u, from, before);
      InputPointsSplit(inputs);
      TakenOne(env, u, TakeInputs(env, u, from, before).value, from, InputPoints(before), inp);
    }
  }

  lemma TakenOne(env: Env, u: UtxoSet, taken: Intake, from: Progress, ps: set<OutPoint>, inp: Input)
    requires taken.made == from.made - ps && taken.view == from.view - (ps - from.made.Keys)
    requires inp.point !in ps && TakeInput(env, u, taken, inp).Ok?
    ensures var r, ps' := TakeInput(env, u, taken, inp).value, ps + {inp.point};
      && r.made == from.made - ps'
      && r.view == from.view - (ps' - from.made.Keys)
      && inp.point in from.made.Keys + u.Keys
  {
  }

  /** Where the pass stands after an accepted list, next to where the reference rules stand. */
  ghost predicate Tracks(env: Env, u: UtxoSet, txs: seq<Tx>, pr: Progress) {
    var spent, coins := AllSpent(txs), AllCoins(env, txs);
    && pr.made == coins - spent
    && pr.view == (u - spent) + coins
    && ApplyTxs(env, u, txs) == (u - spent) + (coins - spent)
    && spent <= u.Keys + coins.Keys
  }

  lemma {:induction false} PassTracks(env: Env, u: UtxoSet, txs: seq<Tx>)
    requires |txs| > 0 && txs[0].inputs == [] && FreshTxids(u, txs) && CheckTxs(env, u, txs).Ok?
    ensures Tracks(env, u, txs, CheckTxs(env, u, txs).value)
  {
    var front, tx := txs[..|txs| - 1], txs[|txs| - 1];
    if |txs| == 1 {
      assert front == [] && Spent(tx) == {};
      assert u - {} == u && Coins(env, tx) - {} == Coins(env, tx) && map[] + Coins(env, tx) == Coins(env, tx);
    } else {
      LastIsFresh(env, u, txs);
      PassTracks(env, u, front);
      TracksExtend(env, u, txs, CheckTxs(env, u, front).value);
    }
  }

  lemma TracksExtend(env: Env, u: UtxoSet, txs: seq<Tx>, from: Progress)
    requires |txs| > 0 && FreshTxids(u, txs) && Tracks(env, u, txs[..|txs| - 1], from)
    requires CheckTx(env, u, from, txs[|txs| - 1]).Ok?
    ensures Tracks(env, u, txs, CheckTx(env, u, from, txs[|txs| - 1]).value)
  {
    var front, tx := txs[..|txs| - 1], txs[|txs| - 1];
    LastIsFresh(env, u, txs);
    TakenInputs(env, u, from, tx.inputs);
    TracksStep(u, AllSpent(front), AllCoins(env, front), Spent(tx), Coins(env, tx));
  }

  /** The set algebra of one step. */
  lemma TracksStep(u: UtxoSet, spent: set<OutPoint>, coins: UtxoSet, ins: set<OutPoint>, outs: UtxoSet)
    requires spent <= u.Keys + coins.Keys && ins <= (coins - spent).Keys + u.Keys
    requires outs.Keys !! u.Keys && outs.Keys !! coins.Keys && u.Keys !! coins.Keys
    ensures (coins - spent) - ins + outs == (coins + outs) - (spent + ins)
    ensures (((u - spent) + coins) - (ins - (coins - spent).Keys)) + outs == (u - (spent + ins)) + (coins + outs)
    ensures (((u - spent) + (coins - spent)) - ins) + outs == (u - (spent + ins)) + ((coins + outs) - (spent + ins))
    ensures spent + ins <= u.Keys + (coins + outs).Keys
  {
    MadeStep(spent, coins, ins, outs);
    ViewStep(u, spent, coins, ins, outs);
    assert ((u - spent) + (coins - spent)) - ins == (u - (spent + ins)) + ((coins - spent) - ins);
  }

  lemma MadeStep(spent: set<OutPoint>, coins: UtxoSet, ins: set<OutPoint>, outs: UtxoSet)
    requires outs.Keys !! spent + ins
    ensures (coins - spent) - ins + outs == (coins + outs) - (spent + ins)
  {
  }

  lemma ViewStep(u: UtxoSet, spent: set<OutPoint>, coins: UtxoSet, ins: set<OutPoint>, outs: UtxoSet)
    requires u.Keys !! coins.Keys && ins <= (coins - spent).Keys + u.Keys
    ensures (((u - spent) + coins) - (ins - (coins - spent).Keys)) + outs == (u - (spent + ins)) + (coins + outs)
  {
    var dropped := ins - (coins - spent).Keys;
    assert ((u - spent) + coins) - dropped == (u - (spent + ins)) + coins;
  }

  /** Insertion leaves `u:` as the reference rules do exactly when no transaction of the block spends
      an output made in the block: such a spend queues no deletion, and the spent output stays. */
  lemma InsertMatchesLedgerIff(env: Env, u: UtxoSet, b: Block)
    requires CheckBlock(env, u, b).Ok? && FreshTxids(u, b.txs)
    ensures CheckBlock(env, u, b).value == ApplyTxs(env, u, b.txs) <==> !ChainedSpend(b.txs)
  {
    CheckBlockParts(env, u, b);
    PassTracks(env, u, b.txs);
    ChainedIff(env, u, b.txs);
    ViewsAgreeIff(u, AllSpent(b.txs), AllCoins(env, b.txs));
  }

  lemma CheckBlockParts(env: Env, u: UtxoSet, b: Block)
    requires CheckBlock(env, u, b).Ok?
    ensures |b.txs| > 0 && b.txs[0].inputs == [] && CheckTxs(env, u, b.txs).Ok?
    ensures CheckBlock(env, u, b).value == CheckTxs(env, u, b.txs).value.view
  {
  }

  lemma ChainedIff(env: Env, u: UtxoSet, txs: seq<Tx>)
    requires FreshTxids(u, txs)
    ensures AllCoins(env, txs).Keys !! u.Keys
    ensures ChainedSpend(txs) <==> exists p :: p in AllCoins(env, txs) && p in AllSpent(txs)
  {
    forall p
      ensures p in AllCoins(env, txs) <==> exists i :: 0 <= i < |txs| && p in Points(txs[i])
    {
      AllCoinsKeys(env, txs, p);
    }
    if i, j, p :| 0 <= i < |txs| && 0 <= j < |txs| && p in Points(txs[i]) && p in Spent(txs[j]) {
      AllSpentKeys(txs, p);
      assert p in AllCoins(env, txs) && p in AllSpent(txs);
    }
    if p :| p in AllCoins(env, txs) && p in AllSpent(txs) {
      AllSpentKeys(txs, p);
    }
  }

  lemma ViewsAgreeIff(u: UtxoSet, spent: set<OutPoint>, coins: UtxoSet)
    requires coins.Keys !! u.Keys
    ensures (u - spent) + coins == (u - spent) + (coins - spent) <==> !exists p :: p in coins && p in spent
  {
    if p :| p in coins && p in spent {
      assert p in (u - spent) + coins && p !in (u - spent) + (coins - spent);
    } else {
      assert coins - spent == coins;
    }
  }
}
