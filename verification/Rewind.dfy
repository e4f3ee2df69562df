/** Rolling blocks back and replaying them, against the reference fold. */
module Rewind {
  import opened Domain
  import opened Ledger
  import opened Seqs
  import opened Storage
  import opened Consensus

  /** All transactions of a run of blocks, in order. */
  function AllTxs(blocks: seq<Block>): (txs: seq<Tx>) {
    if blocks == [] then [] else AllTxs(blocks[..|blocks| - 1]) + blocks[|blocks| - 1].txs
  }

  lemma {:induction false} ApplyConcat(env: Env, u: UtxoSet, a: seq<Tx>, b: seq<Tx>)
    ensures ApplyTxs(env, u, a + b) == ApplyTxs(env, ApplyTxs(env, u, a), b)
  {
    if b == [] {
      assert a + b == a;
    } else {
      ApplyConcat(env, u, a, b[..|b| - 1]);
      DropLastOfJoin(a, b);
    }
  }

  lemma {:induction false} SequenceConcat(env: Env, u: UtxoSet, a: seq<Tx>, b: seq<Tx>)
    requires SequenceOk(env, u, a) && SequenceOk(env, ApplyTxs(env, u, a), b)
    ensures SequenceOk(env, u, a + b)
  {
    if b == [] {
      assert a + b == a;
    } else {
      SequenceConcat(env, u, a, b[..|b| - 1]);
      ApplyConcat(env, u, a, b[..|b| - 1]);
      DropLastOfJoin(a, b);
    }
  }

  lemma {:induction false} UndoConcat(stored: map<string, Tx>, u: UtxoSet, a: seq<Tx>, b: seq<Tx>)
    ensures UndoTxs(stored, u, a + b) == UndoTxs(stored, UndoTxs(stored, u, b), a)
    decreases |b|
  {
    if b == [] {
      assert a + b == a;
    } else {
      UndoConcat(stored, UndoTx(stored, u, b[|b| - 1]), a, b[..|b| - 1]);
      DropLastOfJoin(a, b);
    }
  }

  lemma CutBeforeLast(chain: seq<Block>, n: nat)
    requires n < |chain|
    ensures var front := chain[..|chain| - 1];
      && front[..n] == chain[..n]
      && AllTxs(chain[n..]) == AllTxs(front[n..]) + chain[|chain| - 1].txs
  {
    assert chain[n..][..|chain| - 1 - n] == chain[..|chain| - 1][n..];
  }

  /** The fold of a chain continues the fold of any of its prefixes. */
  lemma {:induction false} FoldFrom(env: Env, chain: seq<Block>, n: nat)
    requires n <= |chain|
    ensures Fold(env, chain) == ApplyTxs(env, Fold(env, chain[..n]), AllTxs(chain[n..]))
  {
    if n == |chain| {
      assert chain[..n] == chain && chain[n..] == [];
    } else {
      var front := chain[..|chain| - 1];
      FoldFrom(env, front, n);
      CutBeforeLast(chain, n);
      ApplyConcat(env, Fold(env, chain[..n]), AllTxs(front[n..]), chain[|chain| - 1].txs);
    }
  }

  lemma LastBlockOk(env: Env, chain: seq<Block>)
    requires ChainOk(env, chain) && chain != []
    ensures ChainOk(env, chain[..|chain| - 1])
    ensures SequenceOk(env, Fold(env, chain[..|chain| - 1]), chain[|chain| - 1].txs)
  {
  }

  lemma {:induction false} ChainOkPrefix(env: Env, chain: seq<Block>, n: nat)
    requires ChainOk(env, chain) && n <= |chain|
    ensures ChainOk(env, chain[..n])
    ensures SequenceOk(env, Fold(env, chain[..n]), AllTxs(chain[n..]))
  {
    if n == |chain| {
      assert chain[..n] == chain && chain[n..] == [];
    } else {
      var front := chain[..|chain| - 1];
      LastBlockOk(env, chain);
      ChainOkPrefix(env, front, n);
      FoldFrom(env, front, n);
      CutBeforeLast(chain, n);
      SequenceConcat(env, Fold(env, chain[..n]), AllTxs(front[n..]), chain[|chain| - 1].txs);
    }
  }

  /** Rolling back blocks newest first undoes all their transactions last to first. */
  lemma {:induction false} UndoBlocksUtxos(stored: map<string, Tx>, s: Store, blocks: seq<Block>)
    ensures UndoBlocks(stored, s, Reversed(blocks)).utxos == UndoTxs(stored, s.utxos, AllTxs(blocks))
  {
    if blocks == [] {
      assert Reversed(blocks) == [];
    } else {
      UndoBlocksOldest(stored, s, blocks);
      UndoBlocksUtxos(stored, s, blocks[1..]);
      AllTxsFirst(blocks);
      UndoConcat(stored, s.utxos, blocks[0].txs, AllTxs(blocks[1..]));
    }
  }

  lemma UndoBlocksOldest(stored: map<string, Tx>, s: Store, blocks: seq<Block>)
    requires blocks != []
    ensures UndoBlocks(stored, s, Reversed(blocks))
            == UndoBlock(stored, UndoBlocks(stored, s, Reversed(blocks[1..])), blocks[0])
  {
    var r := Reversed(blocks);
    assert r[|r| - 1] == blocks[0] && r[..|r| - 1] == Reversed(blocks[1..]);
  }

  lemma {:induction false} AllTxsFirst(blocks: seq<Block>)
    requires blocks != []
    ensures AllTxs(blocks) == blocks[0].txs + AllTxs(blocks[1..])
  {
    if |blocks| == 1 {
      assert blocks[..0] == [] && blocks[1..] == [];
    } else {
      var front := blocks[..|blocks| - 1];
      AllTxsFirst(front);
      assert front[1..] == blocks[1..][..|blocks| - 2];
      assert blocks[0].txs + AllTxs(front[1..]) + blocks[|blocks| - 1].txs
          == blocks[0].txs + (AllTxs(front[1..]) + blocks[|blocks| - 1].txs);
    }
  }

  // ---- a txid names one transaction ----

  ghost predicate Named(naming: string -> Tx, txs: seq<Tx>) {
    forall i :: 0 <= i < |txs| ==> txs[i] == naming(txs[i].txid)
  }

  ghost predicate CoinsNamed(env: Env, naming: string -> Tx, u: UtxoSet) {
    forall p :: p in u ==>
      p.vout < |naming(p.txid).outputs| && u[p] == Coin(env, naming(p.txid).outputs[p.vout])
  }

  ghost predicate StoredNamed(naming: string -> Tx, stored: map<string, Tx>) {
    forall id :: id in stored ==> stored[id] == naming(id)
  }

  lemma {:induction false} ApplyNamed(env: Env, naming: string -> Tx, u: UtxoSet, txs: seq<Tx>)
    requires CoinsNamed(env, naming, u) && Named(naming, txs)
    ensures CoinsNamed(env, naming, ApplyTxs(env, u, txs))
  {
    if txs != [] {
      var front, tx := txs[..|txs| - 1], txs[|txs| - 1];
      ApplyNamed(env, naming, u, front);
      assert tx == naming(tx.txid);
    }
  }

  lemma {:induction false} FoldNamed(env: Env, naming: string -> Tx, chain: seq<Block>)
    requires forall i :: 0 <= i < |chain| ==> Named(naming, chain[i].txs)
    ensures CoinsNamed(env, naming, Fold(env, chain))
  {
    if chain != [] {
      FoldNamed(env, naming, chain[..|chain| - 1]);
      ApplyNamed(env, naming, Fold(env, chain[..|chain| - 1]), chain[|chain| - 1].txs);
    }
  }

  lemma {:induction false} SpentFirstIsStored(stored: map<string, Tx>, txs: seq<Tx>, p: OutPoint)
    requires forall i :: 0 <= i < |txs| ==> SourcesStored(stored, txs[i])
    requires SpentFirst(txs, p)
    ensures p.txid in stored
  {
    var front, tx := txs[..|txs| - 1], txs[|txs| - 1];
    if p in Touched(front) {
      SpentFirstIsStored(stored, front, p);
    } else {
      assert SourcesStored(stored, tx);
    }
  }

  /** Whenever rollback finds every spent transaction, it restores exactly what was there. */
  lemma UndoValid(env: Env, naming: string -> Tx, stored: map<string, Tx>, u: UtxoSet, after: UtxoSet, txs: seq<Tx>)
    requires Canon(env, after) == ApplyTxs(env, u, txs) && SequenceOk(env, u, txs)
    requires CoinsNamed(env, naming, u) && StoredNamed(naming, stored)
    requires forall i :: 0 <= i < |txs| ==> SourcesStored(stored, txs[i])
    ensures Canon(env, UndoTxs(stored, after, txs)) == u
  {
    forall p | p in Touched(txs)
      ensures p in u <==> SpentFirst(txs, p)
      ensures p in u ==> Resolvable(stored, p) && u[p] == Coin(env, stored[p.txid].outputs[p.vout])
    {
      ValidListIsUndoable(env, u, txs, p);
      if p in u {
        SpentFirstIsStored(stored, txs, p);
      }
    }
    UndoExactIff(env, stored, u, after, txs);
  }

  lemma {:induction false} CanUndoAll(stored: map<string, Tx>, blocks: seq<Block>)
    requires CanUndo(stored, Reversed(blocks))
    ensures forall i :: 0 <= i < |AllTxs(blocks)| ==> SourcesStored(stored, AllTxs(blocks)[i])
  {
    if blocks != [] {
      var front, b := blocks[..|blocks| - 1], blocks[|blocks| - 1];
      assert Reversed(blocks)[0] == b && CanUndoBlock(stored, b);
      forall i | 0 <= i < |Reversed(front)|
        ensures CanUndoBlock(stored, Reversed(front)[i])
      {
        assert Reversed(front)[i] == Reversed(blocks)[i + 1];
      }
      CanUndoAll(stored, front);
    }
  }

  /** Rolling a good chain back to any of its prefixes gives the fold of that prefix. */
  lemma RollbackReachesPrefix(env: Env, naming: string -> Tx, s: Store, chain: seq<Block>, n: nat)
    requires ChainOk(env, chain) && n <= |chain| && Canon(env, s.utxos) == Fold(env, chain)
    requires (forall i :: 0 <= i < |chain| ==> Named(naming, chain[i].txs)) && StoredNamed(naming, s.txs)
    requires CanUndo(s.txs, Reversed(chain[n..]))
    ensures Canon(env, UndoBlocks(s.txs, s, Reversed(chain[n..])).utxos) == Fold(env, chain[..n])
  {
    UndoBlocksUtxos(s.txs, s, chain[n..]);
    ChainOkPrefix(env, chain, n);
    FoldFrom(env, chain, n);
    FoldNamed(env, naming, chain[..n]);
    CanUndoAll(s.txs, chain[n..]);
    UndoValid(env, naming, s.txs, Fold(env, chain[..n]), s.utxos, AllTxs(chain[n..]));
  }

  // ---- replay ----

  lemma CanonOfApply(env: Env, u: UtxoSet, tx: Tx)
    requires CaseFolds(env)
    ensures Canon(env, ApplyTx(env, u, tx)) == ApplyTx(env, Canon(env, u), tx)
  {
  }

  lemma {:induction false} CanonOfApplyTxs(env: Env, u: UtxoSet, txs: seq<Tx>)
    requires CaseFolds(env)
    ensures Canon(env, ApplyTxs(env, u, txs)) == ApplyTxs(env, Canon(env, u), txs)
  {
    if txs != [] {
      CanonOfApplyTxs(env, u, txs[..|txs| - 1]);
      CanonOfApply(env, ApplyTxs(env, u, txs[..|txs| - 1]), txs[|txs| - 1]);
    }
  }

  lemma CanonOfReplay(env: Env, u: UtxoSet, tx: Tx)
    requires Spent(tx) !! Points(tx)
    ensures Canon(env, ReplayTx(u, tx)) == ApplyTx(env, Canon(env, u), tx)
  {
  }

  /** Replaying a valid list, outputs before inputs and without case folding, is applying it. */
  lemma {:induction false} ReplayIsApply(env: Env, u: UtxoSet, txs: seq<Tx>)
    requires SequenceOk(env, Canon(env, u), txs)
    ensures Canon(env, ReplayTxs(u, txs)) == ApplyTxs(env, Canon(env, u), txs)
  {
    if txs != [] {
      var front, tx := txs[..|txs| - 1], txs[|txs| - 1];
      ReplayIsApply(env, u, front);
      assert TxOk(ApplyTxs(env, Canon(env, u), front), tx);
      CanonOfReplay(env, ReplayTxs(u, front), tx);
    }
  }

  /** Replaying the rest of a good chain on top of a prefix's fold gives the chain's fold. */
  lemma {:induction false} ReplayReachesChain(env: Env, s: Store, chain: seq<Block>, n: nat)
    requires ChainOk(env, chain) && n <= |chain| && Canon(env, s.utxos) == Fold(env, chain[..n])
    ensures Canon(env, ReplayBlocks(s, chain[n..]).utxos) == Fold(env, chain)
  {
    if n == |chain| {
      assert chain[..n] == chain && chain[n..] == [];
    } else {
      LastBlockOk(env, chain);
      CutBeforeLast(chain, n);
      ReplayReachesChain(env, s, chain[..|chain| - 1], n);
      ReplayLast(env, s, chain, n);
    }
  }

  lemma ReplayLast(env: Env, s: Store, chain: seq<Block>, n: nat)
    requires n < |chain|
    requires var front := chain[..|chain| - 1];
      && Canon(env, ReplayBlocks(s, front[n..]).utxos) == Fold(env, front)
      && SequenceOk(env, Fold(env, front), chain[|chain| - 1].txs)
    ensures Canon(env, ReplayBlocks(s, chain[n..]).utxos) == Fold(env, chain)
  {
    var front, b := chain[..|chain| - 1], chain[|chain| - 1];
    ReplayIsApply(env, ReplayBlocks(s, front[n..]).utxos, b.txs);
    assert chain[n..][..|chain[n..]| - 1] == front[n..] && chain[n..][|chain[n..]| - 1] == b;
  }
}
