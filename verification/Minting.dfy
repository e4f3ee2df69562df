/** A run that ends in a reorganization to a branch whose transactions no one has checked. */
module Minting {
  import opened Domain
  import opened Rewards
  import opened Ledger
  import opened Supply
  import opened Storage
  import opened Chains
  import opened TxRules
  import opened Consensus
  import opened Rewind
  import opened Runs
  import opened History
  import opened Sources
  import opened RivalWorld
  import opened Rivals

  lemma ReplayTwo(s: Store, f: Block, g: Block)
    ensures ReplayBlocks(s, [f, g]).utxos == ReplayTxs(ReplayTxs(s.utxos, f.txs), g.txs)
  {
    var one, two := [f], [f, g];
    assert two[..1] == one && one[..0] == [];
    assert ReplayBlocks(s, one) == ReplayBlock(s, f);
  }

  lemma EndsWith(u: UtxoSet, txs: seq<Tx>, q: OutPoint)
    requires |txs| > 0 && q in Points(txs[|txs| - 1]) && txs[|txs| - 1].inputs == []
    ensures q in ReplayTxs(u, txs)
    ensures ReplayTxs(u, txs)[q].amount == txs[|txs| - 1].outputs[q.vout].amount
  {
  }

  lemma BareReplayed(u: UtxoSet, id: string)
    ensures ReplayTxs(u, [Bare(id)]) == u
  {
    var txs := [Bare(id)];
    assert txs[..0] == [] && Spent(txs[0]) == {} && WrittenCoins(txs[0]) == map[] && u + map[] - {} == u;
    assert ReplayTxs(u, txs) == ReplayTx(u, txs[0]);
  }

  lemma MintReplayed(s: Store, f: Block, g: Block)
    requires f.txs == [Bare(f.hash), MINT] && g.txs == [Bare(g.hash)]
    ensures Total(ReplayBlocks(s, [f, g]).utxos) > MAX_SUPPLY
  {
    var q := OutPoint(MINT_ID, 0);
    assert q in Points(MINT) && f.txs[1] == MINT;
    EndsWith(s.utxos, f.txs, q);
    var u := ReplayTxs(s.utxos, f.txs);
    BareReplayed(u, g.hash);
    ReplayTwo(s, f, g);
    TotalRemove(u, q);
  }

  /** A branch on genesis whose first block pays out the impossible amount. */
  ghost predicate Mints(side: seq<Block>) {
    |side| == 3 && side[1].txs == [Bare(side[1].hash), MINT] && side[2].txs == [Bare(side[2].hash)]
  }

  lemma MintBranch(root: seq<Block>, pays: seq<Tx>, side: seq<Block>)
    requires |root| == 1 && pays == [MINT] && side == root + [Made(root, 2, pays)]
    ensures Mints(side + [Made(side, 3, [])])
  {
  }

  /** The minting block and one more, beside the only block on genesis. */
  lemma MintStored(p: Params, pays: seq<Tx>)
    returns (states: seq<State>, events: seq<Event>, path: seq<Block>, side: seq<Block>)
    requires p.maxFuture >= 0 && pays == [MINT] && Named(Naming, pays)
    ensures Reaches(p, states, events, 4, path, side) && Stocked(states[|events|].store)
    ensures Part(path, side, 1) && |path| == 2 && Mints(side)
  {
    var root, before;
    states, events, root, path, before := RivalMade(p, pays);
    Parts(root, 1, 2, pays);
    states, events := SideExtends(p, states, events, 3, path, before, 1);
    side := before + [Made(before, 3, [])];
    MintBranch(root, pays, before);
  }

  lemma MintMoved(s: State, plan: Plan, h: string, bits: nat, side: seq<Block>)
    requires Mints(side) && plan.apply == side[1..]
    ensures Total(Moved(s, plan, h, bits).store.utxos) > MAX_SUPPLY
  {
    assert side[1..] == [side[1], side[2]];
    MintReplayed(UndoBlocks(s.store.txs, s.store, plan.rollback), side[1], side[2]);
  }

  lemma MintAdopted(p: Params, s: State, t: int, path: seq<Block>, side: seq<Block>) returns (s': State)
    requires Standing(s, t, path, side) && t <= 100 && Stocked(s.store) && p.maxReorgDepth >= 1
    requires Part(path, side, 1) && |path| == 2 && Mints(side)
    ensures !Stale(s) && Reorganize(p, s, Last(side).hash) == Ok(Reorg(true, s'))
    ensures Total(s'.store.utxos) > MAX_SUPPLY
  {
    var h, plan := Last(side).hash, Plan(Reversed(path[1..]), side[1..]);
    MoveAccepted(p, s, t, path, side, 1);
    s' := Moved(s, plan, h, s.store.blocks[h].header.bits);
    MintMoved(s, plan, h, s.store.blocks[h].header.bits, side);
  }

  /** No branch of three good blocks holds that much. */
  lemma TooMuchToBeGood(p: Params, s: State, t: int, path: seq<Block>, side: seq<Block>, s': State)
    requires Standing(s, t, path, side) && |side| == 3
    requires Reorganize(p, s, Last(side).hash) == Ok(Reorg(true, s')) && Total(s'.store.utxos) > MAX_SUPPLY
    ensures !ChainOk(World(), side)
  {
    SupplyCapIff(|side|);
    RootedHeights(s.store.blocks, Last(side).hash);
    SameCase(s'.store.utxos);
    if ChainOk(World(), side) {
      ReorganizeKeeps(World(), Naming, p, s, Last(side).hash);
      ChainWithinIssued(World(), side);
    }
  }

  /** Fork blocks are stored with their transactions unchecked, and a reorganization checks none either: the node moves
      to a longer branch in which a transaction without inputs pays out more than the maximum supply. */
  lemma InvalidBranchAdopted(p: Params)
    returns (states: seq<State>, events: seq<Event>, h: string, s': State)
    requires p.maxFuture >= 0 && p.maxReorgDepth >= 1
    ensures CaseFolds(World()) && IsRun(World(), Naming, p, states, events)
    ensures var s := states[|events|];
      && Linked(s.store.blocks) && !Stale(s) && Rooted(s.store.blocks, h)
      && !ChainOk(World(), Chain(s.store.blocks, h))
      && Reorganize(p, s, h) == Ok(Reorg(true, s')) && Total(s'.store.utxos) > MAX_SUPPLY
  {
    var path, side;
    states, events, path, side := MintStored(p, [MINT]);
    s' := MintAdopted(p, states[|events|], 4, path, side);
    TooMuchToBeGood(p, states[|events|], 4, path, side, s');
    h := Last(side).hash;
  }
}
