/** Inserting blocks and rolling them back: the store returns to what it was. */
module Undoing {
  import opened Domain
  import opened Seqs
  import opened Ledger
  import opened Storage
  import opened Chains
  import opened TxRules
  import opened Consensus
  import opened Rewind
  import opened Runs

  /** A block handed to insertion, with the clock at that moment. */
  datatype Submission = Submission(block: Block, now: int)

  function BlocksOf(subs: seq<Submission>): (bs: seq<Block>)
    ensures |bs| == |subs| && forall i :: 0 <= i < |bs| ==> bs[i] == subs[i].block
  {
    seq(|subs|, i requires 0 <= i < |subs| => subs[i].block)
  }

  /** The state after inserting new blocks one by one, if all are accepted. */
  function InsertAll(env: Env, p: Params, s: State, subs: seq<Submission>): (r: Option<State>) {
    if subs == [] then Some(s)
    else
      var last := subs[|subs| - 1];
      match InsertAll(env, p, s, subs[..|subs| - 1])
      case None => None
      case Some(m) =>
        if last.block.hash in m.store.blocks then None
        else
          match Insert(env, p, m, last.block, last.now)
          case Err(_) => None
          case Ok(s') => Some(s')
  }

  /** Every inserted block keeps to what insertion does not check. */
  ghost predicate AllSeparate(env: Env, naming: string -> Tx, p: Params, s: State, subs: seq<Submission>) {
    subs == [] ||
    (var front, b := subs[..|subs| - 1], subs[|subs| - 1].block;
     AllSeparate(env, naming, p, s, front) && WellNamed(env, naming, b)
     && (InsertAll(env, p, s, front).Some? ==> Separate(InsertAll(env, p, s, front).value.store.utxos, b)))
  }

  /** Every unspent output is backed by its stored transaction. */
  ghost predicate Backed(s: Store) {
    forall p :: p in s.utxos ==> p.txid in s.txs
  }

  lemma {:induction false} PutTxsKeys(stored: map<string, Tx>, txs: seq<Tx>)
    ensures PutTxs(stored, txs).Keys == stored.Keys + TxIds(txs)
  {
    if txs != [] {
      var front := txs[..|txs| - 1];
      PutTxsKeys(stored, front);
      IdsSplit(txs);
    }
  }

  lemma IdsSplit(txs: seq<Tx>)
    requires txs != []
    ensures TxIds(txs) == TxIds(txs[..|txs| - 1]) + {txs[|txs| - 1].txid}
  {
    assert txs == txs[..|txs| - 1] + [txs[|txs| - 1]];
  }

  lemma {:induction false} PutTxsDropped(stored: map<string, Tx>, txs: seq<Tx>, ids: set<string>)
    requires TxIds(txs) <= ids
    ensures PutTxs(stored, txs) - ids == stored - ids
  {
    if txs != [] {
      IdsSplit(txs);
      PutTxsDropped(stored, txs[..|txs| - 1], ids);
    }
  }

  lemma {:induction false} CreatedOrOld(env: Env, u: UtxoSet, txs: seq<Tx>, p: OutPoint)
    requires p in ApplyTxs(env, u, txs)
    ensures p in u || p.txid in TxIds(txs)
  {
    if txs != [] {
      IdsSplit(txs);
      if p !in Points(txs[|txs| - 1]) {
        CreatedOrOld(env, u, txs[..|txs| - 1], p);
      }
    }
  }

  /** The sources of a valid list are all among the stored transactions and those of the list. */
  lemma {:induction false} SourcesKnown(env: Env, u: UtxoSet, txs: seq<Tx>, known: set<string>)
    requires SequenceOk(env, u, txs) && TxIds(txs) <= known && forall p :: p in u ==> p.txid in known
    ensures forall i, j :: 0 <= i < |txs| && 0 <= j < |txs[i].inputs| ==> txs[i].inputs[j].point.txid in known
  {
    if txs != [] {
      var front, tx := txs[..|txs| - 1], txs[|txs| - 1];
      IdsSplit(txs);
      SourcesKnown(env, u, front, known);
      forall j | 0 <= j < |tx.inputs|
        ensures tx.inputs[j].point.txid in known
      {
        CreatedOrOld(env, u, front, tx.inputs[j].point);
      }
    }
  }

  /** One accepted block keeps every output backed, and can itself be undone. */
  lemma InsertBacked(env: Env, s: State, b: Block)
    requires CaseFolds(env) && CheckBlock(env, s.store.utxos, b).Ok? && Separate(s.store.utxos, b) && Backed(s.store)
    ensures var s' := InsertEffect(s, b, CheckBlock(env, s.store.utxos, b).value);
      Backed(s'.store) && CanUndoBlock(s'.store.txs, b)
  {
    var u, view := Canon(env, s.store.utxos), CheckBlock(env, s.store.utxos, b).value;
    AcceptedOnFold(env, s.store.utxos, b);
    PutTxsKeys(s.store.txs, b.txs);
    var known := s.store.txs.Keys + TxIds(b.txs);
    SourcesKnown(env, u, b.txs, known);
    forall p | p in view
      ensures p.txid in known
    {
      assert p in Canon(env, view);
      CreatedOrOld(env, u, b.txs, p);
    }
  }

  /** What a list of accepted insertions adds, and that it can be undone. */
  ghost predicate Extended(env: Env, naming: string -> Tx, s: State, bs: seq<Block>, s': State) {
    Inv(env, naming, s') && Backed(s'.store) && Grew(s, bs, s')
  }

  ghost predicate Grew(s: State, bs: seq<Block>, s': State) {
    && Linked(s.store.blocks) && Linked(s'.store.blocks)
    && Path(s') == Path(s) + bs
    && s'.store.blocks - HashesOf(bs) == s.store.blocks
    && s'.store.txs == PutTxs(s.store.txs, AllTxs(bs))
    && CanUndo(s'.store.txs, bs)
  }

  lemma {:induction false} PutTxsConcat(stored: map<string, Tx>, a: seq<Tx>, b: seq<Tx>)
    ensures PutTxs(stored, a + b) == PutTxs(PutTxs(stored, a), b)
  {
    if b == [] {
      assert a + b == a;
    } else {
      PutTxsConcat(stored, a, b[..|b| - 1]);
      assert (a + b)[..|a + b| - 1] == a + b[..|b| - 1];
    }
  }

  lemma CanUndoGrows(stored: map<string, Tx>, more: map<string, Tx>, bs: seq<Block>, b: Block)
    requires CanUndo(stored, bs) && stored.Keys <= more.Keys && CanUndoBlock(more, b)
    ensures CanUndo(more, bs + [b])
  {
    forall i | 0 <= i < |bs|
      ensures CanUndoBlock(more, bs[i])
    {
      assert CanUndoBlock(stored, bs[i]);
      forall j | 0 <= j < |bs[i].txs|
        ensures SourcesStored(more, bs[i].txs[j])
      {
        assert SourcesStored(stored, bs[i].txs[j]);
      }
    }
  }

  lemma InsertOne(env: Env, naming: string -> Tx, p: Params, s: State, bs: seq<Block>, m: State, b: Block, now: int)
    requires CaseFolds(env) && Extended(env, naming, s, bs, m)
    requires b.hash !in m.store.blocks && Insert(env, p, m, b, now).Ok?
    requires WellNamed(env, naming, b) && Separate(m.store.utxos, b)
    ensures Extended(env, naming, s, bs + [b], Insert(env, p, m, b, now).value)
  {
    InsertParts(env, p, m, b, now);
    InsertKeeps(env, naming, p, m, b, now);
    PassedHeaderExtends(env, naming, p, m, b, now);
    InsertBacked(env, m, b);
    StoredIsLinked(env, naming, m.store.blocks[b.hash := b]);
    EffectGrows(s, bs, m, b, CheckBlock(env, m.store.utxos, b).value);
  }

  lemma InsertParts(env: Env, p: Params, m: State, b: Block, now: int)
    requires b.hash !in m.store.blocks && Insert(env, p, m, b, now).Ok?
    ensures CheckHeader(env, p, m, b, now, false).Ok? && CheckBlock(env, m.store.utxos, b).Ok?
    ensures Insert(env, p, m, b, now).value == InsertEffect(m, b, CheckBlock(env, m.store.utxos, b).value)
  {
  }

  lemma EffectGrows(s: State, bs: seq<Block>, m: State, b: Block, view: UtxoSet)
    requires Grew(s, bs, m) && b.hash !in m.store.blocks && (m.tip.Some? ==> Rooted(m.store.blocks, m.tip.value))
    requires b.header.index == |Path(m)| && (b.header.index > 0 ==> m.tip.Some? && b.header.previous == m.tip.value)
    requires var s' := InsertEffect(m, b, view).store; Linked(s'.blocks) && CanUndoBlock(s'.txs, b)
    ensures Grew(s, bs + [b], InsertEffect(m, b, view))
  {
    var s' := InsertEffect(m, b, view);
    InsertedPath(m, b, s', Path(s), bs);
    StoreGrows(s.store, bs, m.store, b, s'.store);
  }

  lemma StoreGrows(s: Store, bs: seq<Block>, m: Store, b: Block, s': Store)
    requires m.blocks - HashesOf(bs) == s.blocks && m.txs == PutTxs(s.txs, AllTxs(bs)) && CanUndo(m.txs, bs)
    requires b.hash !in m.blocks && s'.blocks == m.blocks[b.hash := b] && s'.txs == PutTxs(m.txs, b.txs)
    requires CanUndoBlock(s'.txs, b)
    ensures s'.blocks - HashesOf(bs + [b]) == s.blocks
    ensures s'.txs == PutTxs(s.txs, AllTxs(bs + [b]))
    ensures CanUndo(s'.txs, bs + [b])
  {
    assert (bs + [b])[..|bs|] == bs;
    PutTxsKeys(m.txs, b.txs);
    CanUndoGrows(m.txs, s'.txs, bs, b);
    PutTxsConcat(s.txs, AllTxs(bs), b.txs);
    HashesSplit(bs + [b]);
    DropNew(m.blocks, HashesOf(bs), b);
  }

  lemma DropNew(blocks: Blocks, hs: set<string>, b: Block)
    requires b.hash !in blocks
    ensures blocks[b.hash := b] - (hs + {b.hash}) == blocks - hs
  {
  }

  lemma InsertedPath(m: State, b: Block, s': State, below: seq<Block>, bs: seq<Block>)
    requires Linked(m.store.blocks) && (m.tip.Some? ==> Rooted(m.store.blocks, m.tip.value))
    requires b.hash !in m.store.blocks
    requires s'.store.blocks == m.store.blocks[b.hash := b] && Linked(s'.store.blocks) && s'.tip == Some(b.hash)
    requires b.header.index == |Path(m)| && (b.header.index > 0 ==> m.tip.Some? && b.header.previous == m.tip.value)
    requires Path(m) == below + bs
    ensures Path(s') == below + (bs + [b])
  {
    PathExtends(m.store.blocks, m.tip, b);
    JoinAssociates(below, bs, [b]);
  }

  lemma {:induction false} InsertAllExtends(env: Env, naming: string -> Tx, p: Params, s: State, subs: seq<Submission>)
    requires CaseFolds(env) && Inv(env, naming, s) && Backed(s.store)
    requires InsertAll(env, p, s, subs).Some? && AllSeparate(env, naming, p, s, subs)
    ensures Extended(env, naming, s, BlocksOf(subs), InsertAll(env, p, s, subs).value)
  {
    if subs == [] {
      NothingInserted(env, naming, s);
      assert BlocksOf(subs) == [];
    } else {
      var front, last := subs[..|subs| - 1], subs[|subs| - 1];
      InsertAllStep(env, p, s, subs);
      AllSeparateStep(env, naming, p, s, subs);
      InsertAllExtends(env, naming, p, s, front);
      InsertOne(env, naming, p, s, BlocksOf(front), InsertAll(env, p, s, front).value, last.block, last.now);
      BlocksOfSplit(subs);
    }
  }

  lemma BlocksOfSplit(subs: seq<Submission>)
    requires subs != []
    ensures BlocksOf(subs) == BlocksOf(subs[..|subs| - 1]) + [subs[|subs| - 1].block]
  {
  }

  lemma InsertAllStep(env: Env, p: Params, s: State, subs: seq<Submission>)
    requires subs != [] && InsertAll(env, p, s, subs).Some?
    ensures var front, last := InsertAll(env, p, s, subs[..|subs| - 1]), subs[|subs| - 1];
      && front.Some? && last.block.hash !in front.value.store.blocks
      && Insert(env, p, front.value, last.block, last.now).Ok?
      && InsertAll(env, p, s, subs).value == Insert(env, p, front.value, last.block, last.now).value
  {
  }

  lemma AllSeparateStep(env: Env, naming: string -> Tx, p: Params, s: State, subs: seq<Submission>)
    requires subs != [] && AllSeparate(env, naming, p, s, subs) && InsertAll(env, p, s, subs[..|subs| - 1]).Some?
    ensures AllSeparate(env, naming, p, s, subs[..|subs| - 1]) && WellNamed(env, naming, subs[|subs| - 1].block)
    ensures Separate(InsertAll(env, p, s, subs[..|subs| - 1]).value.store.utxos, subs[|subs| - 1].block)
  {
  }

  lemma NothingInserted(env: Env, naming: string -> Tx, s: State)
    requires Inv(env, naming, s) && Backed(s.store)
    ensures Extended(env, naming, s, [], s)
  {
    StoredIsLinked(env, naming, s.store.blocks);
    assert s.store.blocks - HashesOf([]) == s.store.blocks;
    assert Path(s) + [] == Path(s);
  }

  lemma {:induction false} UndoDropsTxs(stored: map<string, Tx>, s: Store, blocks: seq<Block>)
    ensures UndoBlocks(stored, s, Reversed(blocks)).txs == s.txs - TxIds(AllTxs(blocks))
  {
    if blocks == [] {
      assert Reversed(blocks) == [] && s.txs - TxIds([]) == s.txs;
    } else {
      UndoBlocksOldest(stored, s, blocks);
      UndoDropsTxs(stored, s, blocks[1..]);
      AllTxsFirst(blocks);
      IdsOfJoin(blocks[0].txs, AllTxs(blocks[1..]));
      assert s.txs - TxIds(AllTxs(blocks[1..])) - TxIds(blocks[0].txs) == s.txs - TxIds(AllTxs(blocks));
    }
  }

  lemma IdsOfJoin(a: seq<Tx>, b: seq<Tx>)
    ensures TxIds(a + b) == TxIds(a) + TxIds(b)
  {
    assert forall i :: 0 <= i < |a| ==> (a + b)[i] == a[i];
    assert forall i :: 0 <= i < |b| ==> (a + b)[|a| + i] == b[i];
  }

  lemma ReversedHashes(bs: seq<Block>)
    ensures HashesOf(Reversed(bs)) == HashesOf(bs)
  {
    forall h | h in HashesOf(bs)
      ensures h in HashesOf(Reversed(bs))
    {
      var i :| 0 <= i < |bs| && bs[i].hash == h;
      assert Reversed(bs)[|bs| - 1 - i] == bs[i];
    }
  }

  lemma SameIndex(a: map<nat, string>, b: map<nat, string>, chain: seq<Block>)
    requires IndexExact(a, chain) && IndexExact(b, chain)
    ensures a == b
  {
    assert a.Keys == b.Keys;
  }

  /** Undo is exact: after any list of accepted insertions, the single rollback batch over the reversed list
      gives back `u:` (case aside), `b:` and `i:`, however later transactions chain onto earlier ones; and it
      gives back `t:` exactly when none of the rolled-back transactions had been stored before. */
  lemma InsertThenRollback(env: Env, naming: string -> Tx, p: Params, s: State, subs: seq<Submission>)
    requires CaseFolds(env) && Inv(env, naming, s) && Backed(s.store)
    requires InsertAll(env, p, s, subs).Some? && AllSeparate(env, naming, p, s, subs)
    ensures var after := InsertAll(env, p, s, subs).value.store;
      var r := UndoBlocks(after.txs, after, Reversed(BlocksOf(subs)));
      && CanUndo(after.txs, Reversed(BlocksOf(subs)))
      && Canon(env, r.utxos) == Canon(env, s.store.utxos)
      && r.index == s.store.index
      && r.blocks == s.store.blocks
      && (r.txs == s.store.txs <==> TxIds(AllTxs(BlocksOf(subs))) !! s.store.txs.Keys)
  {
    InsertAllExtends(env, naming, p, s, subs);
    var s', bs := InsertAll(env, p, s, subs).value, BlocksOf(subs);
    CanUndoReversed(s'.store.txs, bs);
    RollbackExtended(env, naming, s, bs, s');
    UndoDropsTxs(s'.store.txs, s'.store, bs);
    PutTxsDropped(s.store.txs, AllTxs(bs), TxIds(AllTxs(bs)));
    DropIff(s.store.txs, TxIds(AllTxs(bs)));
  }

  lemma DropIff(m: map<string, Tx>, ids: set<string>)
    ensures m - ids == m <==> ids !! m.Keys
  {
    if m - ids == m {
      assert (m - ids).Keys == m.Keys - ids;
    }
  }

  lemma CanUndoReversed(stored: map<string, Tx>, bs: seq<Block>)
    requires CanUndo(stored, bs)
    ensures CanUndo(stored, Reversed(bs))
  {
  }

  lemma RollbackExtended(env: Env, naming: string -> Tx, s: State, bs: seq<Block>, s': State)
    requires Inv(env, naming, s) && Extended(env, naming, s, bs, s') && CanUndo(s'.store.txs, Reversed(bs))
    ensures var r := UndoBlocks(s'.store.txs, s'.store, Reversed(bs));
      && Canon(env, r.utxos) == Canon(env, s.store.utxos)
      && r.index == s.store.index
      && r.blocks == s.store.blocks
  {
    var chain, n := Path(s'), |Path(s)|;
    assert chain[n..] == bs && chain[..n] == Path(s);
    if s'.tip.Some? {
      PathNamed(env, naming, s'.store.blocks, s'.tip.value);
      RootedHeights(s'.store.blocks, s'.tip.value);
    }
    RollbackReachesPrefix(env, naming, s'.store, chain, n);
    UndoIndex(s'.store.txs, s'.store, chain, n);
    SameIndex(UndoBlocks(s'.store.txs, s'.store, Reversed(bs)).index, s.store.index, Path(s));
    UndoRemoves(s'.store.txs, s'.store, Reversed(bs));
    ReversedHashes(bs);
  }

  // ---- what insertion's silence about heights costs ----

  /** A newly accepted block extends the path, and the height index then names the longer path exactly when the block
      claims the next height, which insertion never checks. */
  lemma IndexKeptIff(env: Env, naming: string -> Tx, p: Params, s: State, b: Block, now: int)
    requires Inv(env, naming, s) && b.hash !in s.store.blocks && Insert(env, p, s, b, now).Ok?
    ensures Linked(s.store.blocks)
    ensures if s.tip.None? then b.header.index == 0 else b.header.index > 0 && b.header.previous == s.tip.value
    ensures IndexExact(Insert(env, p, s, b, now).value.store.index, Path(s) + [b]) <==> b.header.index == |Path(s)|
  {
    InsertParts(env, p, s, b, now);
    PassedHeaderOnTip(env, naming, p, s, b, now);
    PutIndexIff(s.store.index, Path(s), b);
  }

  lemma PutIndexIff(index: map<nat, string>, chain: seq<Block>, b: Block)
    requires IndexExact(index, chain)
    ensures IndexExact(index[b.header.index := b.hash], chain + [b]) <==> b.header.index == |chain|
  {
    if b.header.index == |chain| {
      IndexExtends(index, chain, b);
    } else {
      var n: nat := |chain|;
      assert n !in index[b.header.index := b.hash] && n < |chain + [b]|;
    }
  }
}
