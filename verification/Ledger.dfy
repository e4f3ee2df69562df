/** Unspent-output sets: what transactions do to them, how that is undone, and how value is conserved. */
module Ledger {
  import opened Domain
  import opened Rewards

  type UtxoSet = map<OutPoint, Utxo>

  /** The outpoints a transaction creates. */
  function Points(tx: Tx): (ps: set<OutPoint>)
    ensures forall p :: p in ps <==> p.txid == tx.txid && p.vout < |tx.outputs|
  {
    set v | 0 <= v < |tx.outputs| :: OutPoint(tx.txid, v)
  }

  predicate PointIn(p: OutPoint, inputs: seq<Input>) {
    exists i :: 0 <= i < |inputs| && inputs[i].point == p
  }

  function InputPoints(inputs: seq<Input>): (ps: set<OutPoint>)
    ensures forall p :: p in ps <==> PointIn(p, inputs)
  {
    set i | 0 <= i < |inputs| :: inputs[i].point
  }

  lemma InputPointsSplit(inputs: seq<Input>)
    requires inputs != []
    ensures InputPoints(inputs) == InputPoints(inputs[..|inputs| - 1]) + {inputs[|inputs| - 1].point}
  {
    var front := inputs[..|inputs| - 1];
    assert forall i :: 0 <= i < |front| ==> front[i] == inputs[i];
  }

  /** The outpoints a transaction consumes. */
  function Spent(tx: Tx): (ps: set<OutPoint>)
    ensures forall i :: 0 <= i < |tx.inputs| ==> tx.inputs[i].point in ps
    ensures forall p :: p in ps ==> exists i :: 0 <= i < |tx.inputs| && tx.inputs[i].point == p
  {
    InputPoints(tx.inputs)
  }

  function Coin(env: Env, out: Output): (c: Utxo) { Utxo(env.lower(out.to), out.amount) }

  function Coins(env: Env, tx: Tx): (u: UtxoSet)
    ensures u.Keys == Points(tx)
  {
    map p | p in Points(tx) :: Coin(env, tx.outputs[p.vout])
  }

  /** The first n coins of a transaction put into a set one after the other. */
  function PutCoins(env: Env, u: UtxoSet, tx: Tx, n: nat): (u': UtxoSet)
    requires n <= |tx.outputs|
  {
    if n == 0 then u else PutCoins(env, u, tx, n - 1)[OutPoint(tx.txid, n - 1) := Coin(env, tx.outputs[n - 1])]
  }

  lemma {:induction false} PutCoinsLookup(env: Env, u: UtxoSet, tx: Tx, n: nat, p: OutPoint)
    requires n <= |tx.outputs|
    ensures var r := PutCoins(env, u, tx, n);
      if p.txid == tx.txid && p.vout < n then p in r && r[p] == Coin(env, tx.outputs[p.vout])
      else (p in r <==> p in u) && (p in u ==> r[p] == u[p])
  {
    if n > 0 {
      PutCoinsLookup(env, u, tx, n - 1, p);
    }
  }

  lemma PutAllCoins(env: Env, u: UtxoSet, tx: Tx)
    ensures PutCoins(env, u, tx, |tx.outputs|) == u + Coins(env, tx)
  {
    forall p
      ensures p in PutCoins(env, u, tx, |tx.outputs|) <==> p in u + Coins(env, tx)
      ensures p in u + Coins(env, tx) ==> PutCoins(env, u, tx, |tx.outputs|)[p] == (u + Coins(env, tx))[p]
    {
      PutCoinsLookup(env, u, tx, |tx.outputs|, p);
    }
  }

  /** The reference effect of a transaction: remove what it spends, add what it makes. */
  function ApplyTx(env: Env, u: UtxoSet, tx: Tx): (u': UtxoSet) { (u - Spent(tx)) + Coins(env, tx) }

  function ApplyTxs(env: Env, u: UtxoSet, txs: seq<Tx>): (u': UtxoSet) {
    if txs == [] then u else ApplyTx(env, ApplyTxs(env, u, txs[..|txs| - 1]), txs[|txs| - 1])
  }

  /** The reference state after a chain of blocks, from nothing. */
  function Fold(env: Env, chain: seq<Block>): (u: UtxoSet) {
    if chain == [] then map[] else ApplyTxs(env, Fold(env, chain[..|chain| - 1]), chain[|chain| - 1].txs)
  }

  /** The same coins with every address in lower case. */
  function Canon(env: Env, u: UtxoSet): (c: UtxoSet)
    ensures c.Keys == u.Keys
  {
    map p | p in u :: Utxo(env.lower(u[p].to), u[p].amount)
  }

  // ---- validity ----

  predicate TxOk(u: UtxoSet, tx: Tx) {
    && (forall i :: 0 <= i < |tx.inputs| ==> tx.inputs[i].point in u)
    && (forall i, j :: 0 <= i < j < |tx.inputs| ==> tx.inputs[i].point != tx.inputs[j].point)
    && Points(tx) !! u.Keys
  }

  ghost predicate SequenceOk(env: Env, u: UtxoSet, txs: seq<Tx>) {
    txs == [] || (SequenceOk(env, u, txs[..|txs| - 1])
                  && TxOk(ApplyTxs(env, u, txs[..|txs| - 1]), txs[|txs| - 1]))
  }

  function InSum(u: UtxoSet, inputs: seq<Input>): (s: nat)
    requires forall i :: 0 <= i < |inputs| ==> inputs[i].point in u
  {
    if inputs == [] then 0
    else InSum(u, inputs[..|inputs| - 1]) + u[inputs[|inputs| - 1].point].amount
  }

  function OutSum(outputs: seq<Output>): (s: nat) {
    if outputs == [] then 0 else OutSum(outputs[..|outputs| - 1]) + outputs[|outputs| - 1].amount
  }

  /** Fees of the transactions after the coinbase; None when one of them pays out more than it takes in. */
  ghost function Fees(env: Env, u: UtxoSet, txs: seq<Tx>): (f: Option<nat>)
    requires SequenceOk(env, u, txs)
  {
    if |txs| <= 1 then Some(0)
    else WithFee(Fees(env, u, txs[..|txs| - 1]), ApplyTxs(env, u, txs[..|txs| - 1]), txs[|txs| - 1])
  }

  /** One transaction's fee added, unless it pays out more than it takes in. */
  function WithFee(fees: Option<nat>, w: UtxoSet, tx: Tx): (f: Option<nat>)
    requires forall i :: 0 <= i < |tx.inputs| ==> tx.inputs[i].point in w
  {
    if fees.None? || OutSum(tx.outputs) > InSum(w, tx.inputs) then None
    else Some(fees.value + InSum(w, tx.inputs) - OutSum(tx.outputs))
  }

  lemma {:induction false} FeesExtend(env: Env, u: UtxoSet, txs: seq<Tx>)
    requires |txs| > 1
    requires var front, tx := txs[..|txs| - 1], txs[|txs| - 1];
      SequenceOk(env, u, front) && TxOk(ApplyTxs(env, u, front), tx) && Fees(env, u, front).Some?
      && OutSum(tx.outputs) <= InSum(ApplyTxs(env, u, front), tx.inputs)
    ensures var front, tx := txs[..|txs| - 1], txs[|txs| - 1];
      SequenceOk(env, u, txs)
      && Fees(env, u, txs)
         == Some(Fees(env, u, front).value + InSum(ApplyTxs(env, u, front), tx.inputs) - OutSum(tx.outputs))
  {
    var front, tx := txs[..|txs| - 1], txs[|txs| - 1];
    SequenceExtends(env, u, txs);
    FeesStep(env, u, txs);
    FeeAdded(Fees(env, u, front), ApplyTxs(env, u, front), tx);
  }

  lemma {:induction false} SequenceExtends(env: Env, u: UtxoSet, txs: seq<Tx>)
    requires txs != [] && SequenceOk(env, u, txs[..|txs| - 1])
    requires TxOk(ApplyTxs(env, u, txs[..|txs| - 1]), txs[|txs| - 1])
    ensures SequenceOk(env, u, txs)
  {
  }

  lemma {:induction false} FeesStep(env: Env, u: UtxoSet, txs: seq<Tx>)
    requires |txs| > 1 && SequenceOk(env, u, txs)
    ensures Fees(env, u, txs)
      == WithFee(Fees(env, u, txs[..|txs| - 1]), ApplyTxs(env, u, txs[..|txs| - 1]), txs[|txs| - 1])
  {
  }

  lemma FeeAdded(fees: Option<nat>, w: UtxoSet, tx: Tx)
    requires fees.Some? && TxOk(w, tx) && OutSum(tx.outputs) <= InSum(w, tx.inputs)
    ensures WithFee(fees, w, tx) == Some(fees.value + InSum(w, tx.inputs) - OutSum(tx.outputs))
  {
  }

  /** A block is good on top of `u`: a coinbase first, every input present and unspent, nothing
      created twice, and no more paid out than fees plus the height's reward. */
  ghost predicate BlockOk(env: Env, u: UtxoSet, b: Block) {
    && |b.txs| > 0
    && b.txs[0].inputs == []
    && SequenceOk(env, u, b.txs)
    && Fees(env, u, b.txs).Some?
    && OutSum(b.txs[0].outputs) <= BlockReward(b.header.index) + Fees(env, u, b.txs).value
  }

  ghost predicate ChainOk(env: Env, chain: seq<Block>) {
    chain == [] || (ChainOk(env, chain[..|chain| - 1])
                    && BlockOk(env, Fold(env, chain[..|chain| - 1]), chain[|chain| - 1]))
  }

  // ---- undo ----

  /** The coins that rollback puts back, read from the stored transactions. */
  function Restored(stored: map<string, Tx>, tx: Tx): (u: UtxoSet) {
    map p | p in Spent(tx) && p.txid in stored && p.vout < |stored[p.txid].outputs| ::
      Utxo(stored[p.txid].outputs[p.vout].to, stored[p.txid].outputs[p.vout].amount)
  }

  function UndoTx(stored: map<string, Tx>, u: UtxoSet, tx: Tx): (u': UtxoSet) {
    (u - Points(tx)) + Restored(stored, tx)
  }

  /** Undo a list of transactions, last one first. */
  function UndoTxs(stored: map<string, Tx>, u: UtxoSet, txs: seq<Tx>): (u': UtxoSet)
    decreases |txs|
  {
    if txs == [] then u else UndoTxs(stored, UndoTx(stored, u, txs[|txs| - 1]), txs[..|txs| - 1])
  }

  function Touched(txs: seq<Tx>): (ps: set<OutPoint>) {
    if txs == [] then {} else Touched(txs[..|txs| - 1]) + Spent(txs[|txs| - 1]) + Points(txs[|txs| - 1])
  }

  /** Whether the first transaction that touches p spends it. */
  predicate SpentFirst(txs: seq<Tx>, p: OutPoint) {
    txs != [] && (if p in Touched(txs[..|txs| - 1]) then SpentFirst(txs[..|txs| - 1], p)
                  else p in Spent(txs[|txs| - 1]))
  }

  /** Every spent outpoint can be looked up among the stored transactions. */
  predicate Resolvable(stored: map<string, Tx>, p: OutPoint) {
    p.txid in stored && p.vout < |stored[p.txid].outputs|
  }

  lemma {:induction false} UndoLookup(stored: map<string, Tx>, u: UtxoSet, txs: seq<Tx>, p: OutPoint)
    ensures var r := UndoTxs(stored, u, txs);
      if p !in Touched(txs) then (p in r <==> p in u) && (p in u ==> r[p] == u[p])
      else if SpentFirst(txs, p) && Resolvable(stored, p) then
        p in r && r[p] == Utxo(stored[p.txid].outputs[p.vout].to, stored[p.txid].outputs[p.vout].amount)
      else SpentFirst(txs, p) || p !in r
    decreases |txs|
  {
    if txs != [] {
      var before, tx := txs[..|txs| - 1], txs[|txs| - 1];
      UndoLookup(stored, UndoTx(stored, u, tx), before, p);
    }
  }

  lemma {:induction false} ApplyUntouched(env: Env, u: UtxoSet, txs: seq<Tx>, p: OutPoint)
    requires p !in Touched(txs)
    ensures var r := ApplyTxs(env, u, txs); (p in r <==> p in u) && (p in u ==> r[p] == u[p])
  {
    if txs != [] {
      ApplyUntouched(env, u, txs[..|txs| - 1], p);
    }
  }

  /** The coin an outpoint must hold if `stored` is right about its transaction. */
  ghost predicate CoinsMatch(env: Env, stored: map<string, Tx>, u: UtxoSet, ps: set<OutPoint>) {
    forall p :: p in ps && p in u ==>
      Resolvable(stored, p) && u[p] == Coin(env, stored[p.txid].outputs[p.vout])
  }

  ghost predicate UndoneTo(env: Env, r: UtxoSet, u: UtxoSet, txs: seq<Tx>, p: OutPoint) {
    && (p in Touched(txs) ==> (p in r <==> SpentFirst(txs, p)))
    && (p !in Touched(txs) ==> (p in r <==> p in u))
    && (p in r && p in u ==> Utxo(env.lower(r[p].to), r[p].amount) == u[p])
  }

  lemma UndoPoint(env: Env, stored: map<string, Tx>, u: UtxoSet, after: UtxoSet, txs: seq<Tx>, p: OutPoint)
    requires Canon(env, after) == ApplyTxs(env, u, txs)
    requires CoinsMatch(env, stored, u, Touched(txs))
    requires p in Touched(txs) && SpentFirst(txs, p) ==> Resolvable(stored, p)
    ensures UndoneTo(env, UndoTxs(stored, after, txs), u, txs, p)
  {
    UndoLookup(stored, after, txs, p);
    if p !in Touched(txs) {
      ApplyUntouched(env, u, txs, p);
      assert p in after <==> p in Canon(env, after);
      assert p in after ==> Canon(env, after)[p] == Utxo(env.lower(after[p].to), after[p].amount);
    }
  }

  /** Undoing a list restores the earlier set exactly when every touched outpoint was unspent
      beforehand if and only if its first use is a spend; it does not matter how later
      transactions of the list chain onto earlier ones. */
  lemma UndoExactIff(env: Env, stored: map<string, Tx>, u: UtxoSet, after: UtxoSet, txs: seq<Tx>)
    requires Canon(env, after) == ApplyTxs(env, u, txs)
    requires CoinsMatch(env, stored, u, Touched(txs))
    requires forall p :: p in Touched(txs) && SpentFirst(txs, p) ==> Resolvable(stored, p)
    ensures Canon(env, UndoTxs(stored, after, txs)) == u
            <==> (forall p :: p in Touched(txs) ==> (p in u <==> SpentFirst(txs, p)))
  {
    forall p
      ensures UndoneTo(env, UndoTxs(stored, after, txs), u, txs, p)
    {
      UndoPoint(env, stored, u, after, txs, p);
    }
    UndoneEverywhere(env, UndoTxs(stored, after, txs), u, txs);
  }

  lemma UndoneEverywhere(env: Env, r: UtxoSet, u: UtxoSet, txs: seq<Tx>)
    requires forall p :: UndoneTo(env, r, u, txs, p)
    ensures Canon(env, r) == u <==> (forall p :: p in Touched(txs) ==> (p in u <==> SpentFirst(txs, p)))
  {
    if Canon(env, r) == u {
      forall p | p in Touched(txs)
        ensures p in u <==> SpentFirst(txs, p)
      {
        assert UndoneTo(env, r, u, txs, p);
        assert p in r <==> p in Canon(env, r);
      }
    }
    if forall p :: p in Touched(txs) ==> (p in u <==> SpentFirst(txs, p)) {
      forall p
        ensures p in r <==> p in u
        ensures p in r && p in u ==> Canon(env, r)[p] == u[p]
      {
        assert UndoneTo(env, r, u, txs, p);
      }
      assert Canon(env, r).Keys == u.Keys;
    }
  }

  /** A valid list always meets that condition. */
  lemma {:induction false} ValidListIsUndoable(env: Env, u: UtxoSet, txs: seq<Tx>, p: OutPoint)
    requires SequenceOk(env, u, txs) && p in Touched(txs)
    ensures p in u <==> SpentFirst(txs, p)
  {
    var before, tx := txs[..|txs| - 1], txs[|txs| - 1];
    if p in Touched(before) {
      ValidListIsUndoable(env, u, before, p);
    } else {
      ApplyUntouched(env, u, before, p);
    }
  }
}
