/** Whether rollback can find the transactions behind the inputs it restores, and what reorganizations do to that. */
module Sources {
  import opened Domain
  import opened Ledger
  import opened Storage
  import opened Chains
  import opened TxRules
  import opened Consensus
  import opened Rewind
  import opened Runs
  import opened History
  import opened Undoing

  /** The transactions of every stored block are stored. */
  ghost predicate Stocked(s: Store) {
    forall h :: h in s.blocks ==> TxIds(s.blocks[h].txs) <= s.txs.Keys
  }

  function PathIds(chain: seq<Block>): (ids: set<string>) { TxIds(AllTxs(chain)) }

  lemma {:induction false} PathIdsIff(chain: seq<Block>, id: string)
    ensures id in PathIds(chain) <==> exists i :: 0 <= i < |chain| && id in TxIds(chain[i].txs)
  {
    if chain != [] {
      var front, b := chain[..|chain| - 1], chain[|chain| - 1];
      PathIdsIff(front, id);
      IdsOfJoin(AllTxs(front), b.txs);
      assert forall i :: 0 <= i < |front| ==> front[i] == chain[i];
    }
  }

  lemma {:induction false} StockedPath(s: Store, h: string)
    requires Linked(s.blocks) && Stocked(s)
    ensures PathIds(Chain(s.blocks, h)) <= s.txs.Keys
  {
    ChainEntries(s.blocks, h);
    StockedChain(s, Chain(s.blocks, h));
  }

  lemma StockedChain(s: Store, chain: seq<Block>)
    requires Stocked(s)
    requires forall i :: 0 <= i < |chain| ==> chain[i].hash in s.blocks && s.blocks[chain[i].hash] == chain[i]
    ensures PathIds(chain) <= s.txs.Keys
  {
    forall id | id in PathIds(chain)
      ensures id in s.txs
    {
      PathIdsIff(chain, id);
      var i :| 0 <= i < |chain| && id in TxIds(chain[i].txs);
      assert TxIds(s.blocks[chain[i].hash].txs) <= s.txs.Keys;
    }
  }

  // ---- where a good chain's inputs come from ----

  /** Everything a good chain spends or leaves unspent was made by one of its own transactions. */
  lemma MadeOnPath(env: Env, chain: seq<Block>)
    requires ChainOk(env, chain)
    ensures forall p :: p in Fold(env, chain) ==> p.txid in PathIds(chain)
    ensures forall i :: 0 <= i < |AllTxs(chain)| ==> forall j :: 0 <= j < |AllTxs(chain)[i].inputs| ==>
      AllTxs(chain)[i].inputs[j].point.txid in PathIds(chain)
  {
    var txs := AllTxs(chain);
    assert chain[..0] == [] && chain[0..] == chain;
    ChainOkPrefix(env, chain, 0);
    FoldFrom(env, chain, 0);
    SourcesKnown(env, map[], txs, PathIds(chain));
    forall p | p in Fold(env, chain)
      ensures p.txid in PathIds(chain)
    {
      CreatedOrOld(env, map[], txs, p);
    }
  }

  lemma {:induction false} AmongAll(chain: seq<Block>, i: nat, j: nat)
    requires i < |chain| && j < |chain[i].txs|
    ensures chain[i].txs[j] in AllTxs(chain)
  {
    if i < |chain| - 1 {
      AmongAll(chain[..|chain| - 1], i, j);
    }
  }

  lemma BlockSources(env: Env, chain: seq<Block>, i: nat, j: nat, k: nat)
    requires ChainOk(env, chain) && i < |chain| && j < |chain[i].txs| && k < |chain[i].txs[j].inputs|
    ensures chain[i].txs[j].inputs[k].point.txid in PathIds(chain)
  {
    MadeOnPath(env, chain);
    AmongAll(chain, i, j);
  }

  /** Some block from position n on spends an output of one of these transactions. */
  ghost predicate SpendsFrom(chain: seq<Block>, n: nat, ids: set<string>) {
    exists i, j, k :: n <= i < |chain| && 0 <= j < |chain[i].txs| && 0 <= k < |chain[i].txs[j].inputs|
      && chain[i].txs[j].inputs[k].point.txid in ids
  }

  lemma UndoneSources(stored: map<string, Tx>, chain: seq<Block>, n: nat, ids: set<string>)
    requires n <= |chain| && CanUndo(stored, Reversed(chain[n..])) && ids !! stored.Keys
    ensures !SpendsFrom(chain, n, ids)
  {
    forall i, j, k | n <= i < |chain| && 0 <= j < |chain[i].txs| && 0 <= k < |chain[i].txs[j].inputs|
      ensures chain[i].txs[j].inputs[k].point.txid !in ids
    {
      assert Reversed(chain[n..])[|chain| - 1 - i] == chain[i];
      assert SourcesStored(stored, chain[i].txs[j]);
    }
  }

  lemma UndoableBlock(env: Env, stored: map<string, Tx>, chain: seq<Block>, n: nat, i: nat)
    requires ChainOk(env, chain) && n <= i < |chain| && !SpendsFrom(chain, n, PathIds(chain) - stored.Keys)
    ensures CanUndoBlock(stored, chain[i])
  {
    forall j, k | 0 <= j < |chain[i].txs| && 0 <= k < |chain[i].txs[j].inputs|
      ensures chain[i].txs[j].inputs[k].point.txid in stored
    {
      BlockSources(env, chain, i, j, k);
    }
  }

  /** Rolling a good chain back to position n works exactly when nothing from there on spends an output of a
      transaction of the chain that is no longer stored. */
  lemma CanUndoIff(env: Env, stored: map<string, Tx>, chain: seq<Block>, n: nat)
    requires ChainOk(env, chain) && n <= |chain|
    ensures CanUndo(stored, Reversed(chain[n..])) <==> !SpendsFrom(chain, n, PathIds(chain) - stored.Keys)
  {
    if CanUndo(stored, Reversed(chain[n..])) {
      UndoneSources(stored, chain, n, PathIds(chain) - stored.Keys);
    }
    if !SpendsFrom(chain, n, PathIds(chain) - stored.Keys) {
      forall i | n <= i < |chain|
        ensures CanUndoBlock(stored, chain[i])
      {
        UndoableBlock(env, stored, chain, n, i);
      }
    }
  }

  /** While everything is stocked, every unspent output is backed and every rollback along the path works. */
  lemma StockedCanUndo(env: Env, naming: string -> Tx, s: State, n: nat)
    requires Inv(env, naming, s) && Stocked(s.store) && Linked(s.store.blocks) && n <= |Path(s)|
    ensures Backed(s.store) && CanUndo(s.store.txs, Reversed(Path(s)[n..]))
  {
    if s.tip.Some? {
      StockedPath(s.store, s.tip.value);
    }
    MadeOnPath(env, Path(s));
    CanUndoIff(env, s.store.txs, Path(s), n);
    assert PathIds(Path(s)) - s.store.txs.Keys == {};
    forall p | p in s.store.utxos
      ensures p.txid in s.store.txs
    {
      assert p in Canon(env, s.store.utxos);
    }
  }

  // ---- the three operations ----

  lemma PutStocks(s: Store, b: Block, s': Store)
    requires Stocked(s) && s'.blocks == s.blocks[b.hash := b] && s'.txs == PutTxs(s.txs, b.txs)
    ensures Stocked(s')
  {
    PutTxsKeys(s.txs, b.txs);
  }

  /** The transactions a reorganization from the tip to h rolls back. */
  ghost function GoneIds(blocks: Blocks, tip: string, h: string): (ids: set<string>)
    requires Linked(blocks)
  {
    var main := Chain(blocks, tip);
    PathIds(main[CommonLength(main, Chain(blocks, h))..])
  }

  /** No block that stays contains a transaction that is rolled back with another. */
  ghost predicate NothingShared(blocks: Blocks, tip: string, h: string)
    requires Linked(blocks)
  {
    forall x :: x in blocks && x !in HashesOf(Gone(blocks, tip, h)) ==> TxIds(blocks[x].txs) !! GoneIds(blocks, tip, h)
  }

  /** What a moved reorganization leaves in `b:` and `t:`. */
  lemma MovedStores(p: Params, s: State, h: string)
    requires Linked(s.store.blocks) && Reorganize(p, s, h).Ok? && Reorganize(p, s, h).value.moved
    ensures s.tip.Some?
    ensures var s', tip := Reorganize(p, s, h).value.state, s.tip.value;
      && s'.store.txs == s.store.txs - GoneIds(s.store.blocks, tip, h)
      && s'.store.blocks == s.store.blocks - HashesOf(Gone(s.store.blocks, tip, h))
  {
    ReorganizationCases(p, s, h);
    var plan := PlanOf(p, s.store.blocks, s.tip.value, h).value;
    var main := Chain(s.store.blocks, s.tip.value);
    UndoDropsTxs(s.store.txs, s.store, main[CommonLength(main, Chain(s.store.blocks, h))..]);
    UndoRemoves(s.store.txs, s.store, plan.rollback);
    ReplayKeepsRest(UndoBlocks(s.store.txs, s.store, plan.rollback), plan.apply);
  }

  /** A reorganization keeps everything stocked exactly when it rolls back no transaction that a remaining block has. */
  lemma MovedStockedIff(p: Params, s: State, h: string)
    requires Linked(s.store.blocks) && Stocked(s.store) && Reorganize(p, s, h).Ok? && Reorganize(p, s, h).value.moved
    ensures s.tip.Some?
    ensures Stocked(Reorganize(p, s, h).value.state.store) <==> NothingShared(s.store.blocks, s.tip.value, h)
  {
    MovedStores(p, s, h);
    var s', gone := Reorganize(p, s, h).value.state, GoneIds(s.store.blocks, s.tip.value, h);
    forall x | x in s'.store.blocks
      ensures TxIds(s'.store.blocks[x].txs) <= s'.store.txs.Keys <==> TxIds(s.store.blocks[x].txs) !! gone
    {
      StaysIff(s.store.txs, gone, TxIds(s.store.blocks[x].txs));
    }
  }

  lemma StaysIff(txs: map<string, Tx>, gone: set<string>, ids: set<string>)
    requires ids <= txs.Keys
    ensures ids <= (txs - gone).Keys <==> ids !! gone
  {
  }

  /** After a reorganization every unspent output is still backed exactly when no output that the new branch leaves
      unspent belongs to a transaction rolled back with the old one. */
  lemma MovedBackedIff(env: Env, naming: string -> Tx, p: Params, s: State, h: string)
    requires Inv(env, naming, s) && Linked(s.store.blocks) && Stocked(s.store)
    requires Reorganize(p, s, h).Ok? && Reorganize(p, s, h).value.moved && ChainOk(env, Chain(s.store.blocks, h))
    ensures s.tip.Some?
    ensures Backed(Reorganize(p, s, h).value.state.store)
      <==> forall q :: q in Fold(env, Chain(s.store.blocks, h)) ==> q.txid !in GoneIds(s.store.blocks, s.tip.value, h)
  {
    var s', chain := Reorganize(p, s, h).value.state, Chain(s.store.blocks, h);
    ReorganizeKeeps(env, naming, p, s, h);
    MovedStores(p, s, h);
    MadeOnPath(env, chain);
    StockedPath(s.store, h);
    assert Canon(env, s'.store.utxos) == Fold(env, chain);
    assert forall q :: q in s'.store.utxos <==> q in Fold(env, chain);
  }

  /** And the next rollback, to any position of the new path, works exactly when nothing above that position spends
      an output of such a transaction. */
  lemma NextRollbackIff(env: Env, naming: string -> Tx, p: Params, s: State, h: string, n: nat)
    requires Inv(env, naming, s) && Linked(s.store.blocks) && Stocked(s.store) && n <= |Chain(s.store.blocks, h)|
    requires Reorganize(p, s, h).Ok? && Reorganize(p, s, h).value.moved && ChainOk(env, Chain(s.store.blocks, h))
    ensures s.tip.Some?
    ensures var s', chain := Reorganize(p, s, h).value.state, Chain(s.store.blocks, h);
      && Linked(s'.store.blocks) && Path(s') == chain
      && (CanUndo(s'.store.txs, Reversed(chain[n..]))
          <==> !SpendsFrom(chain, n, GoneIds(s.store.blocks, s.tip.value, h)))
  {
    ReorganizeKeeps(env, naming, p, s, h);
    MovedStores(p, s, h);
    StockedPath(s.store, h);
    WithoutGone(env, s.store.txs, Chain(s.store.blocks, h), n, GoneIds(s.store.blocks, s.tip.value, h));
  }

  lemma WithoutGone(env: Env, txs: map<string, Tx>, chain: seq<Block>, n: nat, gone: set<string>)
    requires ChainOk(env, chain) && n <= |chain| && PathIds(chain) <= txs.Keys
    ensures CanUndo(txs - gone, Reversed(chain[n..])) <==> !SpendsFrom(chain, n, gone)
  {
    CanUndoIff(env, txs - gone, chain, n);
    assert PathIds(chain) - (txs - gone).Keys == PathIds(chain) * gone;
    OwnSources(env, chain, n, gone);
  }

  /** A good chain spends outputs of its own transactions only. */
  lemma OwnSources(env: Env, chain: seq<Block>, n: nat, ids: set<string>)
    requires ChainOk(env, chain)
    ensures SpendsFrom(chain, n, PathIds(chain) * ids) <==> SpendsFrom(chain, n, ids)
  {
    if SpendsFrom(chain, n, ids) {
      var i, j, k :| n <= i < |chain| && 0 <= j < |chain[i].txs| && 0 <= k < |chain[i].txs[j].inputs|
        && chain[i].txs[j].inputs[k].point.txid in ids;
      BlockSources(env, chain, i, j, k);
    }
  }

  // ---- over runs ----

  /** If the event is a reorganization that moves, it shares no transaction with what stays. */
  ghost predicate SharesNothing(p: Params, s: State, e: Event) {
    e.Reorganizing? && Linked(s.store.blocks) && Reorganize(p, s, e.hash).Ok? && Reorganize(p, s, e.hash).value.moved
    ==> s.tip.Some? && NothingShared(s.store.blocks, s.tip.value, e.hash)
  }

  lemma StepStocks(env: Env, naming: string -> Tx, p: Params, s: State, e: Event, s': State)
    requires Step(env, naming, p, s, e, s') && Stocked(s.store) && SharesNothing(p, s, e)
    ensures Stocked(s'.store)
  {
    match e
    case Inserting(b, now) =>
      if Insert(env, p, s, b, now).Ok? && b.hash !in s.store.blocks {
        InsertParts(env, p, s, b, now);
        PutStocks(s.store, b, s'.store);
      }
    case StoringFork(b, now) =>
      if StoreFork(env, p, s, b, now).Ok? {
        PutStocks(s.store, b, s'.store);
      }
    case Reorganizing(h) =>
      if Reorganize(p, s, h).Ok? && Reorganize(p, s, h).value.moved {
        MovedStockedIff(p, s, h);
      }
  }

  /** In a run whose reorganizations never roll back a transaction that a remaining block has, no reorganization
      ever fails for want of a spent transaction, and every unspent output is backed. */
  lemma {:induction false} RunNeverStuck(env: Env, naming: string -> Tx, p: Params, states: seq<State>,
                                         events: seq<Event>, i: nat, h: string)
    requires CaseFolds(env) && IsRun(env, naming, p, states, events) && i < |states|
    requires forall k :: 0 <= k < |events| ==> SharesNothing(p, states[k], events[k])
    ensures Stocked(states[i].store) && Backed(states[i].store)
    ensures Linked(states[i].store.blocks) && Reorganize(p, states[i], h) != Err(SpentTxMissing)
  {
    var s := states[i];
    if i > 0 {
      RunNeverStuck(env, naming, p, states, events, i - 1, h);
      StepStocks(env, naming, p, states[i - 1], events[i - 1], s);
    }
    RunKeeps(env, naming, p, states, events, i);
    StockedMoves(env, naming, p, s, h);
  }

  lemma {:induction false} StockedMoves(env: Env, naming: string -> Tx, p: Params, s: State, h: string)
    requires Inv(env, naming, s) && Stocked(s.store)
    ensures Backed(s.store) && Linked(s.store.blocks) && Reorganize(p, s, h) != Err(SpentTxMissing)
  {
    StoredIsLinked(env, naming, s.store.blocks);
    if s.tip.None? {
      StockedCanUndo(env, naming, s, 0);
    } else {
      StockedCanUndo(env, naming, s, CommonLength(Path(s), Chain(s.store.blocks, h)));
      NotForWant(p, s, h);
    }
  }

  lemma NotForWant(p: Params, s: State, h: string)
    requires Linked(s.store.blocks) && s.tip.Some?
    requires CanUndo(s.store.txs, Reversed(Path(s)[CommonLength(Path(s), Chain(s.store.blocks, h))..]))
    ensures Reorganize(p, s, h) != Err(SpentTxMissing)
  {
  }
}
