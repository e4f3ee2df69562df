/** Who can spend what: outputs leave the unspent set only under keys of their own addresses. */
module Ownership {
  import opened Domain
  import opened Ledger
  import opened TxRules
  import opened Acceptance
  import opened Consensus
  import opened History

  /** Input i is for a coin of its signer: one made in the block so far, or else a committed one. */
  ghost predicate TakesOwn(env: Env, u: UtxoSet, made: UtxoSet, inp: Input) {
    if inp.point in made then Owned(env, inp, made[inp.point])
    else inp.point in u && Owned(env, inp, u[inp.point])
  }

  lemma {:induction false} InputsTakeOwn(env: Env, u: UtxoSet, from: Progress, inputs: seq<Input>)
    requires TakeInputs(env, u, from, inputs).Ok?
    ensures forall i :: 0 <= i < |inputs| ==> TakesOwn(env, u, from.made, inputs[i])
  {
    if inputs != [] {
      var before, inp := inputs[..|inputs| - 1], inputs[|inputs| - 1];
      InputsTakeOwn(env, u, from, before);
      TakenInputs(env, u, from, before);
      forall i | 0 <= i < |inputs|
        ensures TakesOwn(env, u, from.made, inputs[i])
      {
        if i < |before| {
          assert TakesOwn(env, u, from.made, before[i]);
        }
      }
    }
  }

  lemma {:induction false} PassUpTo(env: Env, u: UtxoSet, txs: seq<Tx>, j: nat)
    requires 0 < j < |txs| && CheckTxs(env, u, txs).Ok?
    ensures CheckTxs(env, u, txs[..j]).Ok?
    ensures CheckTx(env, u, CheckTxs(env, u, txs[..j]).value, txs[j]).Ok?
  {
    if j < |txs| - 1 {
      PassUpTo(env, u, txs[..|txs| - 1], j);
      assert txs[..|txs| - 1][..j] == txs[..j];
    }
  }

  /** In an accepted block every transaction with inputs is signed, and every input is for a coin of its key's address:
      the coin the reference ledger holds at that point, or, where a transaction before has consumed that already, the
      coin that was there before the block. */
  lemma SpentByOwner(env: Env, u: UtxoSet, b: Block, j: nat, i: nat)
    requires CheckBlock(env, u, b).Ok? && j < |b.txs| && i < |b.txs[j].inputs|
    ensures var w, inp := ApplyTxs(env, u, b.txs[..j]), b.txs[j].inputs[i];
      && j > 0 && env.signaturesVerify(b.txs[j]) && env.addressOf(inp.pubkey).Some?
      && (inp.point in w || inp.point in u)
      && env.lower(env.addressOf(inp.pubkey).value) == env.lower((if inp.point in w then w else u)[inp.point].to)
  {
    CheckBlockParts(env, u, b);
    PassUpTo(env, u, b.txs, j);
    var from := CheckTxs(env, u, b.txs[..j]).value;
    PassMirrors(env, u, b.txs[..j]);
    InputsTakeOwn(env, u, from, b.txs[j].inputs);
    assert TakesOwn(env, u, from.made, b.txs[j].inputs[i]);
  }

  /** Some signed transaction of the list spends the outpoint under a key of this coin's address. */
  ghost predicate Released(env: Env, txs: seq<Tx>, q: OutPoint, coin: Utxo) {
    exists j, i :: 0 <= j < |txs| && 0 <= i < |txs[j].inputs| && SignedSpend(env, txs[j], i, q, coin)
  }

  ghost predicate SignedSpend(env: Env, tx: Tx, i: nat, q: OutPoint, coin: Utxo)
    requires i < |tx.inputs|
  {
    && tx.inputs[i].point == q && env.signaturesVerify(tx) && env.addressOf(tx.inputs[i].pubkey).Some?
    && env.lower(env.addressOf(tx.inputs[i].pubkey).value) == env.lower(coin.to)
  }

  lemma LastReleases(env: Env, u: UtxoSet, from: Progress, tx: Tx, q: OutPoint) returns (i: nat)
    requires CheckTx(env, u, from, tx).Ok? && q in u && q in from.view && q !in CheckTx(env, u, from, tx).value.view
    ensures i < |tx.inputs| && SignedSpend(env, tx, i, q, u[q])
  {
    TakenInputs(env, u, from, tx.inputs);
    InputsTakeOwn(env, u, from, tx.inputs);
    assert q in InputPoints(tx.inputs) && q !in from.made;
    i :| 0 <= i < |tx.inputs| && tx.inputs[i].point == q;
    assert TakesOwn(env, u, from.made, tx.inputs[i]);
  }

  lemma {:induction false} PassReleases(env: Env, u: UtxoSet, txs: seq<Tx>, q: OutPoint)
    requires |txs| > 0 && CheckTxs(env, u, txs).Ok? && q in u && q !in CheckTxs(env, u, txs).value.view
    ensures Released(env, txs, q, u[q])
  {
    var front, tx := txs[..|txs| - 1], txs[|txs| - 1];
    if |txs| > 1 {
      if q in CheckTxs(env, u, front).value.view {
        var i := LastReleases(env, u, CheckTxs(env, u, front).value, tx, q);
        assert SignedSpend(env, txs[|txs| - 1], i, q, u[q]);
      } else {
        PassReleases(env, u, front, q);
        var j, i :| 0 <= j < |front| && 0 <= i < |front[j].inputs| && SignedSpend(env, front[j], i, q, u[q]);
        assert SignedSpend(env, txs[j], i, q, u[q]);
      }
    }
  }

  /** Along every run an insertion removes an unspent output only if a transaction of the block spends it, properly
      signed and under a key of the output's own address; every other output it leaves as it was. */
  lemma RunReleasesToOwners(env: Env, naming: string -> Tx, p: Params, states: seq<State>, events: seq<Event>, k: nat,
                            q: OutPoint)
    requires IsRun(env, naming, p, states, events) && k < |events| && events[k].Inserting?
    requires q in states[k].store.utxos
    ensures var u, u' := states[k].store.utxos, states[k + 1].store.utxos;
      if q in u' then u'[q] == u[q] else Released(env, events[k].block.txs, q, u[q])
  {
    InsertReleases(env, naming, p, states[k], events[k].block, events[k].now, states[k + 1], q);
  }

  lemma InsertReleases(env: Env, naming: string -> Tx, p: Params, s: State, b: Block, now: int, s': State, q: OutPoint)
    requires Step(env, naming, p, s, Inserting(b, now), s') && q in s.store.utxos
    ensures if q in s'.store.utxos then s'.store.utxos[q] == s.store.utxos[q]
      else Released(env, b.txs, q, s.store.utxos[q])
  {
    var u := s.store.utxos;
    if Insert(env, p, s, b, now).Ok? && b.hash !in s.store.blocks {
      CheckBlockParts(env, u, b);
      if q !in s'.store.utxos {
        PassReleases(env, u, b.txs, q);
      } else {
        PassTracks(env, u, b.txs);
        ChainedIff(env, u, b.txs);
      }
    }
  }
}
