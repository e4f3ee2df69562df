/** The key spaces of the database and the write batches committed to them. */
module Storage {
  import opened Domain
  import opened Ledger

  /** `b:`, `t:`, `u:`, `i:` and `tip`. */
  datatype Store = Store(
    blocks: map<string, Block>,
    txs: map<string, Tx>,
    utxos: UtxoSet,
    index: map<nat, string>,
    tip: Option<string>)

  const EMPTY: Store := Store(map[], map[], map[], map[], None)

  datatype Op =
    | PutBlock(block: Block)
    | DeleteBlock(hash: string)
    | PutTx(tx: Tx)
    | DeleteTx(txid: string)
    | PutUtxo(point: OutPoint, coin: Utxo)
    | DeleteUtxo(point: OutPoint)
    | PutIndex(height: nat, hash: string)
    | DeleteIndex(height: nat)
    | PutTip(hash: string)

  function ApplyOp(s: Store, op: Op): (s': Store) {
    match op
    case PutBlock(b) => s.(blocks := s.blocks[b.hash := b])
    case DeleteBlock(h) => s.(blocks := s.blocks - {h})
    case PutTx(tx) => s.(txs := s.txs[tx.txid := tx])
    case DeleteTx(id) => s.(txs := s.txs - {id})
    case PutUtxo(p, c) => s.(utxos := s.utxos[p := c])
    case DeleteUtxo(p) => s.(utxos := s.utxos - {p})
    case PutIndex(n, h) => s.(index := s.index[n := h])
    case DeleteIndex(n) => s.(index := s.index - {n})
    case PutTip(h) => s.(tip := Some(h))
  }

  /** Committing a batch applies its operations in order. */
  function Commit(s: Store, batch: seq<Op>): (s': Store) {
    if batch == [] then s else ApplyOp(Commit(s, batch[..|batch| - 1]), batch[|batch| - 1])
  }

  lemma CommitOne(s: Store, batch: seq<Op>, op: Op)
    ensures Commit(s, batch + [op]) == ApplyOp(Commit(s, batch), op)
  {
    assert (batch + [op])[..|batch|] == batch;
  }

  /** The last operation a batch holds on an outpoint, if any. */
  function LastOn(batch: seq<Op>, p: OutPoint): (r: Option<Op>) {
    if batch == [] then None
    else
      var op := batch[|batch| - 1];
      if (op.PutUtxo? || op.DeleteUtxo?) && op.point == p then Some(op) else LastOn(batch[..|batch| - 1], p)
  }

  /** Whatever came before it in the batch, the last operation on a key decides. */
  lemma {:induction false} LastOperationWins(s: Store, batch: seq<Op>, p: OutPoint)
    ensures var u := Commit(s, batch).utxos;
      match LastOn(batch, p)
      case None => (p in u <==> p in s.utxos) && (p in u ==> u[p] == s.utxos[p])
      case Some(op) => if op.PutUtxo? then p in u && u[p] == op.coin else p !in u
  {
    if batch != [] {
      LastOperationWins(s, batch[..|batch| - 1], p);
    }
  }

  // ---- what rollback and replay do to the store ----

  function TxIds(txs: seq<Tx>): (ids: set<string>)
    ensures forall id :: id in ids <==> exists i :: 0 <= i < |txs| && txs[i].txid == id
  {
    set i | 0 <= i < |txs| :: txs[i].txid
  }

  /** Rolling one block back, reading the transactions it spends from `stored`. */
  function UndoBlock(stored: map<string, Tx>, s: Store, b: Block): (s': Store) {
    s.(utxos := UndoTxs(stored, s.utxos, b.txs),
       txs := s.txs - TxIds(b.txs),
       blocks := s.blocks - {b.hash},
       index := s.index - {b.header.index})
  }

  function UndoBlocks(stored: map<string, Tx>, s: Store, blocks: seq<Block>): (s': Store) {
    if blocks == [] then s
    else UndoBlock(stored, UndoBlocks(stored, s, blocks[..|blocks| - 1]), blocks[|blocks| - 1])
  }

  /** Rollback fails when the transaction behind a spent input is not stored. */
  predicate SourcesStored(stored: map<string, Tx>, tx: Tx) {
    forall i :: 0 <= i < |tx.inputs| ==> tx.inputs[i].point.txid in stored
  }

  predicate CanUndoBlock(stored: map<string, Tx>, b: Block) {
    forall j :: 0 <= j < |b.txs| ==> SourcesStored(stored, b.txs[j])
  }

  predicate CanUndo(stored: map<string, Tx>, blocks: seq<Block>) {
    forall i :: 0 <= i < |blocks| ==> CanUndoBlock(stored, blocks[i])
  }

  /** Outputs exactly as written in the transaction, without case folding. */
  function WrittenCoins(tx: Tx): (u: UtxoSet)
    ensures u.Keys == Points(tx)
  {
    map p | p in Points(tx) :: Utxo(tx.outputs[p.vout].to, tx.outputs[p.vout].amount)
  }

  function ReplayTx(u: UtxoSet, tx: Tx): (u': UtxoSet) { (u + WrittenCoins(tx)) - Spent(tx) }

  /** Outputs are put and then inputs deleted, so a transaction leaves nothing that it spends. */
  lemma ReplayLeaves(u: UtxoSet, tx: Tx, q: OutPoint)
    ensures q in ReplayTx(u, tx)
      <==> (q in u || q in Points(tx)) && forall i :: 0 <= i < |tx.inputs| ==> tx.inputs[i].point != q
    ensures q in ReplayTx(u, tx) && q in Points(tx) ==>
      ReplayTx(u, tx)[q] == Utxo(tx.outputs[q.vout].to, tx.outputs[q.vout].amount)
  {
  }

  function ReplayTxs(u: UtxoSet, txs: seq<Tx>): (u': UtxoSet) {
    if txs == [] then u else ReplayTx(ReplayTxs(u, txs[..|txs| - 1]), txs[|txs| - 1])
  }

  function ReplayBlock(s: Store, b: Block): (s': Store) {
    s.(utxos := ReplayTxs(s.utxos, b.txs), index := s.index[b.header.index := b.hash])
  }

  function ReplayBlocks(s: Store, blocks: seq<Block>): (s': Store) {
    if blocks == [] then s else ReplayBlock(ReplayBlocks(s, blocks[..|blocks| - 1]), blocks[|blocks| - 1])
  }
}
