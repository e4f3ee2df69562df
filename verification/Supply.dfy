/** How much value a chain of good blocks can hold. */
module Supply {
  import opened Domain
  import opened Rewards
  import opened Ledger
  import opened Seqs

  /** The value of all unspent outputs together. */
  ghost function Total(u: UtxoSet): (t: nat) {
    if u == map[] then 0
    else
      var p :| p in u;
      u[p].amount + Total(u - {p})
  }

  lemma {:induction false} TotalRemove(u: UtxoSet, p: OutPoint)
    requires p in u
    ensures Total(u) == u[p].amount + Total(u - {p})
    decreases |u|
  {
    var q :| q in u && Total(u) == u[q].amount + Total(u - {q});
    if q != p {
      TotalRemove(u - {q}, p);
      TotalRemove(u - {p}, q);
      assert u - {q} - {p} == u - {p} - {q};
    }
  }

  lemma TotalPut(u: UtxoSet, p: OutPoint, c: Utxo)
    requires p !in u
    ensures Total(u[p := c]) == Total(u) + c.amount
  {
    TotalRemove(u[p := c], p);
    assert u[p := c] - {p} == u;
  }

  lemma {:induction false} TotalAfterSpending(u: UtxoSet, inputs: seq<Input>)
    requires forall i :: 0 <= i < |inputs| ==> inputs[i].point in u
    requires forall i, j :: 0 <= i < j < |inputs| ==> inputs[i].point != inputs[j].point
    ensures Total(u - InputPoints(inputs)) + InSum(u, inputs) == Total(u)
  {
    if inputs == [] {
      assert u - InputPoints(inputs) == u;
    } else {
      var front, last := inputs[..|inputs| - 1], inputs[|inputs| - 1];
      TotalAfterSpending(u, front);
      TotalRemove(u - InputPoints(front), last.point);
      assert u - InputPoints(front) - {last.point} == u - InputPoints(inputs) by {
        InputPointsSplit(inputs);
      }
    }
  }

  lemma {:induction false} TotalAfterCreating(env: Env, u: UtxoSet, tx: Tx, n: nat)
    requires n <= |tx.outputs| && Points(tx) !! u.Keys
    ensures Total(PutCoins(env, u, tx, n)) == Total(u) + OutSum(tx.outputs[..n])
  {
    if n > 0 {
      var p := OutPoint(tx.txid, n - 1);
      TotalAfterCreating(env, u, tx, n - 1);
      assert p in Points(tx);
      PutCoinsLookup(env, u, tx, n - 1, p);
      TotalPut(PutCoins(env, u, tx, n - 1), p, Coin(env, tx.outputs[n - 1]));
      NextPrefix(tx.outputs, n - 1);
    }
  }

  /** A valid transaction removes what it takes in and adds what it pays out. */
  lemma TxConserves(env: Env, u: UtxoSet, tx: Tx)
    requires TxOk(u, tx)
    ensures Total(ApplyTx(env, u, tx)) + InSum(u, tx.inputs) == Total(u) + OutSum(tx.outputs)
  {
    TotalAfterSpending(u, tx.inputs);
    TotalAfterCreating(env, u - Spent(tx), tx, |tx.outputs|);
    PutAllCoins(env, u - Spent(tx), tx);
    WholePrefix(tx.outputs);
  }

  lemma {:induction false} TxsConserve(env: Env, u: UtxoSet, txs: seq<Tx>)
    requires |txs| > 0 && txs[0].inputs == [] && SequenceOk(env, u, txs) && Fees(env, u, txs).Some?
    ensures Total(ApplyTxs(env, u, txs)) + Fees(env, u, txs).value == Total(u) + OutSum(txs[0].outputs)
  {
    var before, tx := txs[..|txs| - 1], txs[|txs| - 1];
    TxConserves(env, ApplyTxs(env, u, before), tx);
    if |txs| > 1 {
      TxsConserve(env, u, before);
    }
  }

  /** A good block changes the total by its coinbase output less its fees, so by at most the reward. */
  lemma BlockConserves(env: Env, u: UtxoSet, b: Block)
    requires BlockOk(env, u, b)
    ensures Total(ApplyTxs(env, u, b.txs)) + Fees(env, u, b.txs).value == Total(u) + OutSum(b.txs[0].outputs)
    ensures Total(ApplyTxs(env, u, b.txs)) <= Total(u) + BlockReward(b.header.index)
  {
    TxsConserve(env, u, b.txs);
  }

  /** A chain of good blocks never holds more than the rewards of its heights. */
  lemma {:induction false} ChainWithinIssued(env: Env, chain: seq<Block>)
    requires ChainOk(env, chain)
    requires forall i :: 0 <= i < |chain| ==> chain[i].header.index == i
    ensures Total(Fold(env, chain)) <= Issued(|chain|)
  {
    if chain != [] {
      var before := chain[..|chain| - 1];
      ChainWithinIssued(env, before);
      BlockConserves(env, Fold(env, before), chain[|chain| - 1]);
    }
  }

  /** Folding case moves no value. */
  lemma {:induction false} TotalOfCanon(env: Env, u: UtxoSet)
    ensures Total(Canon(env, u)) == Total(u)
    decreases |u|
  {
    if u != map[] {
      var p :| p in u;
      TotalRemove(u, p);
      TotalRemove(Canon(env, u), p);
      TotalOfCanon(env, u - {p});
      assert Canon(env, u) - {p} == Canon(env, u - {p});
    } else {
      assert Canon(env, u) == map[];
    }
  }
}
