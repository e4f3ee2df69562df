/** Which blocks the transaction pass accepts, in terms of the reference rules. */
module Acceptance {
  import opened Domain
  import opened Bytes
  import opened Rewards
  import opened Ledger
  import opened TxRules

  /** A transaction the reference rules and the node's policies allow on top of `w`. */
  ghost predicate TxAccepts(env: Env, w: UtxoSet, tx: Tx) {
    && Signed(env, tx)
    && Payable(env, w, tx.inputs)
    && OutSum(tx.outputs) <= InSum(w, tx.inputs)
    && 100_000_000_000_000 + 200_000_000_000 * env.encodedSize(tx) <= InSum(w, tx.inputs) - OutSum(tx.outputs)
  }

  /** A transaction with inputs carries a verifying signature. */
  predicate Signed(env: Env, tx: Tx) { |tx.inputs| > 0 ==> env.signaturesVerify(tx) }

  /** The coin is paid to the address of the input's key, case aside. */
  predicate Owned(env: Env, inp: Input, coin: Utxo) {
    match env.addressOf(inp.pubkey)
    case None => false
    case Some(address) => env.lower(address) == env.lower(coin.to)
  }

  /** Distinct unspent inputs, each owned by its signer, worth less than 2^256 together. */
  ghost predicate Payable(env: Env, w: UtxoSet, inputs: seq<Input>) {
    && (forall i :: 0 <= i < |inputs| ==> inputs[i].point in w && Owned(env, inputs[i], w[inputs[i].point]))
    && (forall i, j :: 0 <= i < j < |inputs| ==> inputs[i].point != inputs[j].point)
    && InSum(w, inputs) < U256_BOUND
  }

  /** What `w` says about an outpoint is what the pass would find for it. */
  ghost predicate Agrees(w: UtxoSet, u: UtxoSet, made: UtxoSet, p: OutPoint) {
    && (p in w <==> p in made || p in u)
    && (p in made ==> p in w && w[p] == made[p])
    && (p !in made && p in u ==> p in w && w[p] == u[p])
  }

  lemma {:induction false} TakeInputsIff(env: Env, u: UtxoSet, from: Progress, w: UtxoSet, inputs: seq<Input>)
    requires forall i :: 0 <= i < |inputs| ==> Agrees(w, u, from.made, inputs[i].point)
    ensures TakeInputs(env, u, from, inputs).Ok? <==> Payable(env, w, inputs)
    ensures TakeInputs(env, u, from, inputs).Ok? ==> TakeInputs(env, u, from, inputs).value.sum == InSum(w, inputs)
  {
    if inputs != [] {
      var before, inp := inputs[..|inputs| - 1], inputs[|inputs| - 1];
      TakeInputsIff(env, u, from, w, before);
      if TakeInputs(env, u, from, before).Ok? {
        TakenInputs(env, u, from, before);
        TakeLastIff(env, u, from, w, inputs);
      } else if Payable(env, w, inputs) {
        PayablePrefix(env, w, inputs);
      }
    }
  }

  lemma PayablePrefix(env: Env, w: UtxoSet, inputs: seq<Input>)
    requires inputs != [] && Payable(env, w, inputs)
    ensures Payable(env, w, inputs[..|inputs| - 1])
  {
  }

  lemma TakeLastIff(env: Env, u: UtxoSet, from: Progress, w: UtxoSet, inputs: seq<Input>)
    requires inputs != [] && Agrees(w, u, from.made, inputs[|inputs| - 1].point)
    requires var before := inputs[..|inputs| - 1];
      var r := TakeInputs(env, u, from, before);
      && r.Ok? && Payable(env, w, before) && r.value.sum == InSum(w, before)
      && r.value.made == from.made - InputPoints(before)
    ensures TakeInputs(env, u, from, inputs).Ok? <==> Payable(env, w, inputs)
    ensures TakeInputs(env, u, from, inputs).Ok? ==> TakeInputs(env, u, from, inputs).value.sum == InSum(w, inputs)
  {
    var before, inp := inputs[..|inputs| - 1], inputs[|inputs| - 1];
    PayableLast(env, w, inputs);
    if !PointIn(inp.point, before) {
      TakeOneIff(env, u, TakeInputs(env, u, from, before).value, w, inp);
    }
  }

  lemma TakeOneIff(env: Env, u: UtxoSet, taken: Intake, w: UtxoSet, inp: Input)
    requires Agrees(w, u, taken.made, inp.point)
    ensures TakeInput(env, u, taken, inp).Ok?
      <==> inp.point in w && Owned(env, inp, w[inp.point]) && taken.sum + w[inp.point].amount < U256_BOUND
    ensures TakeInput(env, u, taken, inp).Ok? ==>
      TakeInput(env, u, taken, inp).value.sum == taken.sum + w[inp.point].amount
  {
  }

  lemma PayableLast(env: Env, w: UtxoSet, inputs: seq<Input>)
    requires inputs != [] && Payable(env, w, inputs[..|inputs| - 1])
    ensures var before, inp := inputs[..|inputs| - 1], inputs[|inputs| - 1];
      Payable(env, w, inputs)
      <==> && !PointIn(inp.point, before) && inp.point in w && Owned(env, inp, w[inp.point])
           && InSum(w, before) + w[inp.point].amount < U256_BOUND
  {
    var before := inputs[..|inputs| - 1];
    assert forall i :: 0 <= i < |before| ==> before[i] == inputs[i];
  }

  /** The fees so far with this transaction's added, when it may come next on top of `w`. */
  ghost function AcceptNext(env: Env, w: UtxoSet, fees: nat, tx: Tx): (r: Option<nat>) {
    if TxAccepts(env, w, tx) && fees + InSum(w, tx.inputs) - OutSum(tx.outputs) < U256_BOUND
    then Some(fees + InSum(w, tx.inputs) - OutSum(tx.outputs)) else None
  }

  /** The fees of a list that the reference rules and the node's policies allow. */
  ghost function AcceptAll(env: Env, u: UtxoSet, txs: seq<Tx>): (r: Option<nat>)
    requires |txs| > 0
  {
    if |txs| == 1 then if Signed(env, txs[0]) then Some(0) else None
    else
      match AcceptAll(env, u, txs[..|txs| - 1])
      case None => None
      case Some(fees) => AcceptNext(env, ApplyTxs(env, u, txs[..|txs| - 1]), fees, txs[|txs| - 1])
  }

  lemma SpentOncePrefix(txs: seq<Tx>)
    requires txs != [] && SpentOnce(txs)
    ensures SpentOnce(txs[..|txs| - 1])
    ensures Spent(txs[|txs| - 1]) !! AllSpent(txs[..|txs| - 1])
  {
    var front, tx := txs[..|txs| - 1], txs[|txs| - 1];
    forall p | p in AllSpent(front)
      ensures p !in Spent(tx)
    {
      AllSpentKeys(front, p);
    }
  }

  lemma TrackedAgrees(env: Env, u: UtxoSet, txs: seq<Tx>, pr: Progress, p: OutPoint)
    requires Tracks(env, u, txs, pr) && p !in AllSpent(txs) && u.Keys !! AllCoins(env, txs).Keys
    ensures Agrees(ApplyTxs(env, u, txs), u, pr.made, p)
  {
  }

  lemma CheckNextIff(env: Env, u: UtxoSet, from: Progress, w: UtxoSet, tx: Tx)
    requires forall i :: 0 <= i < |tx.inputs| ==> Agrees(w, u, from.made, tx.inputs[i].point)
    ensures CheckTx(env, u, from, tx).Ok? <==> AcceptNext(env, w, from.fees, tx).Some?
    ensures CheckTx(env, u, from, tx).Ok? ==>
      AcceptNext(env, w, from.fees, tx) == Some(CheckTx(env, u, from, tx).value.fees)
  {
    TakeInputsIff(env, u, from, w, tx.inputs);
  }

  /** The pass accepts a list with no outpoint consumed twice exactly when the reference rules do. */
  lemma {:induction false} CheckTxsIff(env: Env, u: UtxoSet, txs: seq<Tx>)
    requires |txs| > 0 && txs[0].inputs == [] && FreshTxids(u, txs) && SpentOnce(txs)
    ensures CheckTxs(env, u, txs).Ok? <==> AcceptAll(env, u, txs).Some?
    ensures CheckTxs(env, u, txs).Ok? ==> AcceptAll(env, u, txs) == Some(CheckTxs(env, u, txs).value.fees)
  {
    if |txs| > 1 {
      var front, tx := txs[..|txs| - 1], txs[|txs| - 1];
      LastIsFresh(env, u, txs);
      SpentOncePrefix(txs);
      CheckTxsIff(env, u, front);
      if CheckTxs(env, u, front).Ok? {
        LastAgrees(env, u, txs);
        CheckNextIff(env, u, CheckTxs(env, u, front).value, ApplyTxs(env, u, front), tx);
      }
    }
  }

  lemma LastAgrees(env: Env, u: UtxoSet, txs: seq<Tx>)
    requires |txs| > 1 && txs[0].inputs == [] && FreshTxids(u, txs) && SpentOnce(txs)
    requires CheckTxs(env, u, txs[..|txs| - 1]).Ok?
    ensures var front, tx := txs[..|txs| - 1], txs[|txs| - 1];
      && (forall i :: 0 <= i < |tx.inputs| ==>
            Agrees(ApplyTxs(env, u, front), u, CheckTxs(env, u, front).value.made, tx.inputs[i].point))
      && Points(tx) !! ApplyTxs(env, u, front).Keys
  {
    var front, tx := txs[..|txs| - 1], txs[|txs| - 1];
    LastIsFresh(env, u, txs);
    SpentOncePrefix(txs);
    PassTracks(env, u, front);
    forall i | 0 <= i < |tx.inputs|
      ensures Agrees(ApplyTxs(env, u, front), u, CheckTxs(env, u, front).value.made, tx.inputs[i].point)
    {
      TrackedAgrees(env, u, front, CheckTxs(env, u, front).value, tx.inputs[i].point);
    }
  }

  /** An accepted list is a valid sequence, and its fees are the reference fees. */
  lemma {:induction false} AcceptedIsOk(env: Env, u: UtxoSet, txs: seq<Tx>)
    requires |txs| > 0 && txs[0].inputs == [] && FreshTxids(u, txs) && SpentOnce(txs)
    requires AcceptAll(env, u, txs).Some?
    ensures SequenceOk(env, u, txs) && Fees(env, u, txs) == AcceptAll(env, u, txs)
  {
    LastIsFresh(env, u, txs);
    if |txs| == 1 {
      CoinbaseOk(env, u, txs);
    } else {
      SpentOncePrefix(txs);
      AcceptAllStep(env, u, txs);
      AcceptedIsOk(env, u, txs[..|txs| - 1]);
      AcceptedLast(env, u, txs);
      AcceptedExtends(env, u, txs, AcceptAll(env, u, txs).value);
    }
  }

  lemma {:induction false} AcceptedExtends(env: Env, u: UtxoSet, txs: seq<Tx>, fees: nat)
    requires |txs| > 1
    requires var front, tx := txs[..|txs| - 1], txs[|txs| - 1];
      && SequenceOk(env, u, front) && Fees(env, u, front).Some?
      && TxOk(ApplyTxs(env, u, front), tx)
      && OutSum(tx.outputs) <= InSum(ApplyTxs(env, u, front), tx.inputs)
      && fees == Fees(env, u, front).value + InSum(ApplyTxs(env, u, front), tx.inputs) - OutSum(tx.outputs)
    ensures SequenceOk(env, u, txs) && Fees(env, u, txs) == Some(fees)
  {
    FeesExtend(env, u, txs);
  }

  lemma CoinbaseOk(env: Env, u: UtxoSet, txs: seq<Tx>)
    requires |txs| == 1 && txs[0].inputs == [] && Points(txs[0]) !! u.Keys
    ensures SequenceOk(env, u, txs)
  {
    assert txs[..0] == [];
    assert TxOk(ApplyTxs(env, u, []), txs[0]);
  }

  lemma {:induction false} AcceptedLast(env: Env, u: UtxoSet, txs: seq<Tx>)
    requires |txs| > 1 && txs[0].inputs == [] && FreshTxids(u, txs) && SpentOnce(txs)
    requires AcceptAll(env, u, txs).Some?
    ensures var front, tx := txs[..|txs| - 1], txs[|txs| - 1];
      && AcceptAll(env, u, front).Some?
      && TxOk(ApplyTxs(env, u, front), tx)
      && OutSum(tx.outputs) <= InSum(ApplyTxs(env, u, front), tx.inputs)
      && AcceptAll(env, u, txs)
         == Some(AcceptAll(env, u, front).value + InSum(ApplyTxs(env, u, front), tx.inputs) - OutSum(tx.outputs))
  {
    var front, tx := txs[..|txs| - 1], txs[|txs| - 1];
    AcceptAllStep(env, u, txs);
    assert Points(tx) !! ApplyTxs(env, u, front).Keys by {
      LastIsFresh(env, u, txs);
      SpentOncePrefix(txs);
      CheckTxsIff(env, u, front);
      LastAgrees(env, u, txs);
    }
    AcceptedTxOk(env, ApplyTxs(env, u, front), AcceptAll(env, u, front).value, tx);
  }

  lemma AcceptAllStep(env: Env, u: UtxoSet, txs: seq<Tx>)
    requires |txs| > 1 && AcceptAll(env, u, txs).Some?
    ensures var front, tx := txs[..|txs| - 1], txs[|txs| - 1];
      AcceptAll(env, u, front).Some?
      && AcceptAll(env, u, txs) == AcceptNext(env, ApplyTxs(env, u, front), AcceptAll(env, u, front).value, tx)
  {
  }

  lemma AcceptedTxOk(env: Env, w: UtxoSet, fees: nat, tx: Tx)
    requires AcceptNext(env, w, fees, tx).Some? && Points(tx) !! w.Keys
    ensures TxOk(w, tx) && OutSum(tx.outputs) <= InSum(w, tx.inputs)
    ensures AcceptNext(env, w, fees, tx).value == fees + InSum(w, tx.inputs) - OutSum(tx.outputs)
  {
  }

  /** Insertion's transaction pass accepts exactly the blocks that are good by the reference rules,
      signed, owned, above the minimum fee and within 256 bits. */
  lemma PassAcceptsIff(env: Env, u: UtxoSet, b: Block)
    requires FreshTxids(u, b.txs) && SpentOnce(b.txs)
    ensures CheckBlock(env, u, b).Ok?
      <==> (&& |b.txs| > 0 && b.txs[0].inputs == []
            && AcceptAll(env, u, b.txs).Some?
            && BlockReward(b.header.index) + AcceptAll(env, u, b.txs).value < U256_BOUND
            && BlockOk(env, u, b))
  {
    if |b.txs| > 0 && b.txs[0].inputs == [] {
      CheckTxsIff(env, u, b.txs);
      if AcceptAll(env, u, b.txs).Some? {
        AcceptedIsOk(env, u, b.txs);
        RewardCheckIff(env, u, b, CheckTxs(env, u, b.txs).value);
      }
    }
  }

  lemma RewardCheckIff(env: Env, u: UtxoSet, b: Block, done: Progress)
    requires |b.txs| > 0 && b.txs[0].inputs == [] && CheckTxs(env, u, b.txs) == Ok(done)
    requires SequenceOk(env, u, b.txs) && Fees(env, u, b.txs) == Some(done.fees)
    ensures CheckBlock(env, u, b).Ok?
      <==> BlockReward(b.header.index) + done.fees < U256_BOUND && BlockOk(env, u, b)
  {
  }

  /** A valid sequence consumes no outpoint twice. */
  lemma {:induction false} ValidSpendsOnce(env: Env, u: UtxoSet, txs: seq<Tx>)
    requires |txs| > 0 && txs[0].inputs == [] && FreshTxids(u, txs) && CheckTxs(env, u, txs).Ok?
    requires SequenceOk(env, u, txs)
    ensures SpentOnce(txs)
  {
    if |txs| > 1 {
      var front, tx := txs[..|txs| - 1], txs[|txs| - 1];
      LastIsFresh(env, u, txs);
      ValidSpendsOnce(env, u, front);
      PassTracks(env, u, front);
      assert Spent(tx) !! AllSpent(front) by {
        assert TxOk(ApplyTxs(env, u, front), tx);
      }
      SpentOnceExtends(txs);
    }
  }

  lemma SpentOnceExtends(txs: seq<Tx>)
    requires txs != [] && SpentOnce(txs[..|txs| - 1])
    requires Spent(txs[|txs| - 1]) !! AllSpent(txs[..|txs| - 1])
    ensures SpentOnce(txs)
  {
    var front, tx := txs[..|txs| - 1], txs[|txs| - 1];
    forall i | 0 <= i < |front|
      ensures Spent(txs[i]) !! Spent(tx)
    {
      forall p | p in Spent(front[i])
        ensures p !in Spent(tx)
      {
        AllSpentKeys(front, p);
      }
    }
    assert forall i, j :: 0 <= i < j < |front| ==> Spent(front[i]) !! Spent(front[j]);
  }

  /** An accepted block is good exactly when it consumes no outpoint twice, which the pass never checks
      across transactions. */
  lemma AcceptedIsGoodIff(env: Env, u: UtxoSet, b: Block)
    requires CheckBlock(env, u, b).Ok? && FreshTxids(u, b.txs)
    ensures BlockOk(env, u, b) <==> SpentOnce(b.txs)
  {
    if SpentOnce(b.txs) {
      PassAcceptsIff(env, u, b);
    } else if BlockOk(env, u, b) {
      ValidSpendsOnce(env, u, b.txs);
    }
  }

  // ---- without assuming anything about txids ----

  /** The outpoints left after a list: each transaction consumes its inputs and then creates its outputs. */
  function Live(keys: set<OutPoint>, txs: seq<Tx>): (ps: set<OutPoint>) {
    if txs == [] then keys else Live(keys, txs[..|txs| - 1]) - Spent(txs[|txs| - 1]) + Points(txs[|txs| - 1])
  }

  /** Every outpoint is there when it is consumed and not there when it is created. */
  predicate InTurn(keys: set<OutPoint>, txs: seq<Tx>) {
    txs == [] || (var front, tx := txs[..|txs| - 1], txs[|txs| - 1];
      InTurn(keys, front) && Spent(tx) <= Live(keys, front) && Points(tx) !! Live(keys, front))
  }

  lemma {:induction false} LiveIsKeys(env: Env, u: UtxoSet, txs: seq<Tx>)
    ensures ApplyTxs(env, u, txs).Keys == Live(u.Keys, txs)
  {
    if txs != [] {
      LiveIsKeys(env, u, txs[..|txs| - 1]);
    }
  }

  /** A coin the pass would take is the reference coin, for every outpoint that is there. */
  ghost predicate Mirrors(w: UtxoSet, u: UtxoSet, made: UtxoSet) {
    && (forall p :: p in made ==> p in w && w[p] == made[p])
    && (forall p :: p in w && p !in made ==> p in u && w[p] == u[p])
  }

  lemma {:induction false} PassMirrors(env: Env, u: UtxoSet, txs: seq<Tx>)
    requires |txs| > 0 && txs[0].inputs == [] && CheckTxs(env, u, txs).Ok?
    ensures Mirrors(ApplyTxs(env, u, txs), u, CheckTxs(env, u, txs).value.made)
  {
    var front, tx := txs[..|txs| - 1], txs[|txs| - 1];
    if |txs| == 1 {
      assert front == [] && Spent(tx) == {};
    } else {
      PassMirrors(env, u, front);
      MirrorsNext(env, u, ApplyTxs(env, u, front), CheckTxs(env, u, front).value, tx);
    }
  }

  lemma MirrorsNext(env: Env, u: UtxoSet, w: UtxoSet, from: Progress, tx: Tx)
    requires Mirrors(w, u, from.made) && CheckTx(env, u, from, tx).Ok?
    ensures Mirrors(ApplyTx(env, w, tx), u, CheckTx(env, u, from, tx).value.made)
  {
    TakenInputs(env, u, from, tx.inputs);
    assert CheckTx(env, u, from, tx).value.made == from.made - Spent(tx) + Coins(env, tx);
  }

  /** The pass over an accepted list in turn adds up the reference fees. */
  lemma {:induction false} InTurnIsOk(env: Env, u: UtxoSet, txs: seq<Tx>)
    requires |txs| > 0 && txs[0].inputs == [] && CheckTxs(env, u, txs).Ok? && InTurn(u.Keys, txs)
    ensures SequenceOk(env, u, txs) && Fees(env, u, txs) == Some(CheckTxs(env, u, txs).value.fees)
  {
    var front, tx := txs[..|txs| - 1], txs[|txs| - 1];
    if |txs| == 1 {
      CoinbaseOk(env, u, txs);
    } else {
      InTurnIsOk(env, u, front);
      NextInTurn(env, u, CheckTxs(env, u, front).value, txs);
      AcceptedExtends(env, u, txs, CheckTxs(env, u, txs).value.fees);
    }
  }

  lemma NextInTurn(env: Env, u: UtxoSet, from: Progress, txs: seq<Tx>)
    requires |txs| > 1 && txs[0].inputs == [] && InTurn(u.Keys, txs)
    requires CheckTxs(env, u, txs[..|txs| - 1]) == Ok(from) && CheckTx(env, u, from, txs[|txs| - 1]).Ok?
    ensures var w, tx := ApplyTxs(env, u, txs[..|txs| - 1]), txs[|txs| - 1];
      && TxOk(w, tx) && OutSum(tx.outputs) <= InSum(w, tx.inputs)
      && CheckTx(env, u, from, tx).value.fees == from.fees + InSum(w, tx.inputs) - OutSum(tx.outputs)
  {
    var front, tx := txs[..|txs| - 1], txs[|txs| - 1];
    var w := ApplyTxs(env, u, front);
    PassMirrors(env, u, front);
    LiveIsKeys(env, u, front);
    CheckNextIff(env, u, from, w, tx);
    AcceptedTxOk(env, w, from.fees, tx);
  }

  lemma {:induction false} ValidInTurn(env: Env, u: UtxoSet, txs: seq<Tx>)
    requires SequenceOk(env, u, txs)
    ensures InTurn(u.Keys, txs)
  {
    if txs != [] {
      ValidInTurn(env, u, txs[..|txs| - 1]);
      LiveIsKeys(env, u, txs[..|txs| - 1]);
    }
  }

  /** An accepted block, whatever its txids, is good exactly when every outpoint is there when it is consumed and not
      there when it is created, which the pass never checks across transactions. */
  lemma AcceptedIsInTurnIff(env: Env, u: UtxoSet, b: Block)
    requires CheckBlock(env, u, b).Ok?
    ensures BlockOk(env, u, b) <==> InTurn(u.Keys, b.txs)
  {
    CheckBlockParts(env, u, b);
    if InTurn(u.Keys, b.txs) {
      InTurnIsOk(env, u, b.txs);
      RewardCheckIff(env, u, b, CheckTxs(env, u, b.txs).value);
    } else if BlockOk(env, u, b) {
      ValidInTurn(env, u, b.txs);
    }
  }

  // ---- refusals ----

  /** An input is refused only when its output is nowhere to be found, its key has no address, or that is not the
      output's, or when the sum is too large. */
  lemma InputRefusalIsReal(env: Env, u: UtxoSet, taken: Intake, inp: Input)
    ensures var r, p := TakeInput(env, u, taken, inp), inp.point;
      && (r == Err(UtxoNotFound) <==> p !in taken.made && p !in u)
      && (r == Err(BadPubkey) ==> env.addressOf(inp.pubkey).None?)
      && (r == Err(NotOwner) ==>
            (p in taken.made || p in u) && !Owned(env, inp, if p in taken.made then taken.made[p] else u[p]))
      && (r.Err? ==> r.error in {UtxoNotFound, BadPubkey, NotOwner, Overflow})
  {
  }

  /** A transaction whose inputs can be taken is refused only for its signature, for paying out more than it takes in,
      or for too small a fee, or when a sum is too large. */
  lemma TxRefusalIsReal(env: Env, u: UtxoSet, from: Progress, tx: Tx)
    requires TakeInputs(env, u, from, tx.inputs).Ok?
    ensures var r, sum := CheckTx(env, u, from, tx), TakeInputs(env, u, from, tx.inputs).value.sum;
      && (r == Err(BadSignature) <==> !Signed(env, tx))
      && (r == Err(OutputsExceedInputs) ==> OutSum(tx.outputs) > sum)
      && (r == Err(FeeTooLow) ==>
            sum - OutSum(tx.outputs) < 100_000_000_000_000 + 200_000_000_000 * env.encodedSize(tx))
      && (r.Err? ==> r.error in {BadSignature, OutputsExceedInputs, FeeTooLow, Overflow})
  {
  }

  /** A block whose transactions pass is refused only for a coinbase that takes more than reward and fees. */
  lemma BlockRefusalIsReal(env: Env, u: UtxoSet, b: Block)
    ensures var r := CheckBlock(env, u, b);
      && (r == Err(EmptyBlock) <==> b.txs == [])
      && (r == Err(CoinbaseHasInputs) <==> b.txs != [] && b.txs[0].inputs != [])
      && (b.txs != [] && b.txs[0].inputs == [] && CheckTxs(env, u, b.txs).Ok? && r.Err? ==>
            || r == Err(Overflow)
            || (r == Err(ExcessReward)
                && OutSum(b.txs[0].outputs) > BlockReward(b.header.index) + CheckTxs(env, u, b.txs).value.fees))
  {
    if b.txs != [] {
      OwnErrors(env, u, b.txs);
    }
  }

  lemma {:induction false} OwnErrors(env: Env, u: UtxoSet, txs: seq<Tx>)
    requires txs != []
    ensures CheckTxs(env, u, txs) !in {Err(EmptyBlock), Err(CoinbaseHasInputs)}
  {
    if |txs| > 1 {
      OwnErrors(env, u, txs[..|txs| - 1]);
      if CheckTxs(env, u, txs[..|txs| - 1]).Ok? {
        OwnInputErrors(env, u, CheckTxs(env, u, txs[..|txs| - 1]).value, txs[|txs| - 1].inputs);
      }
    }
  }

  lemma {:induction false} OwnInputErrors(env: Env, u: UtxoSet, from: Progress, inputs: seq<Input>)
    ensures TakeInputs(env, u, from, inputs) !in {Err(EmptyBlock), Err(CoinbaseHasInputs)}
  {
    if inputs != [] {
      OwnInputErrors(env, u, from, inputs[..|inputs| - 1]);
    }
  }
}
