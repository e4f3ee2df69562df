/** When a longer branch is adopted, in terms of the two paths. */
module Adoption {
  import opened Domain
  import opened Ledger
  import opened Storage
  import opened Chains
  import opened TxRules
  import opened Consensus
  import opened Runs
  import opened History

  /** The tip is recovered instead of compared exactly when more than 100 blocks are stored and the tip's path holds
      fewer than half of them. */
  lemma StaleIff(env: Env, naming: string -> Tx, s: State)
    requires Inv(env, naming, s)
    ensures Linked(s.store.blocks)
    ensures Stale(s) <==> |s.store.blocks| > 100 && |Path(s)| < |s.store.blocks| / 2
  {
    PathLengths(env, naming, s);
  }

  /** The path to h is longer than the tip's path and parts from it within the depth limit, and the transactions the
      rollback needs are stored. */
  ghost predicate Reachable(p: Params, s: State, h: string)
    requires Linked(s.store.blocks)
  {
    var path, branch := Path(s), Chain(s.store.blocks, h);
    && |path| < |branch| && |path| - CommonLength(path, branch) <= p.maxReorgDepth
    && CanUndo(s.store.txs, Reversed(path[CommonLength(path, branch)..]))
  }

  /** A good branch that is reachable from a tip whose path holds at least half of the stored blocks, or these are at
      most 100. */
  ghost predicate Adoptable(env: Env, naming: string -> Tx, p: Params, s: State, h: string) {
    && Inv(env, naming, s) && Linked(s.store.blocks) && s.tip.Some? && Rooted(s.store.blocks, h)
    && ChainOk(env, Chain(s.store.blocks, h)) && Reachable(p, s, h)
    && (|s.store.blocks| <= 100 || |Path(s)| >= |s.store.blocks| / 2)
  }

  lemma RootIsGenesis(env: Env, naming: string -> Tx, blocks: Blocks, h: string)
    requires BlocksStored(env, naming, blocks) && Linked(blocks) && Rooted(blocks, h)
    ensures Chain(blocks, h)[0].hash == GENESIS_HASH && GENESIS_HASH in blocks
    ensures Chain(blocks, h)[0] == blocks[GENESIS_HASH]
  {
    RootedHeights(blocks, h);
    ChainEntries(blocks, h);
    var root := Chain(blocks, h)[0];
    assert BlockStored(env, naming, root.hash, root);
  }

  /** Any two whole paths share at least the genesis block. */
  lemma PathsMeet(env: Env, naming: string -> Tx, blocks: Blocks, tip: string, h: string)
    requires BlocksStored(env, naming, blocks) && Linked(blocks) && Rooted(blocks, tip) && Rooted(blocks, h)
    ensures CommonLength(Chain(blocks, tip), Chain(blocks, h)) > 0
  {
    RootIsGenesis(env, naming, blocks, tip);
    RootIsGenesis(env, naming, blocks, h);
  }

  /** What a comparison of two whole paths that meet comes to. */
  lemma Decided(p: Params, s: State, h: string, path: seq<Block>, branch: seq<Block>, n: nat)
    requires Linked(s.store.blocks) && s.tip.Some? && Rooted(s.store.blocks, s.tip.value) && Rooted(s.store.blocks, h)
    requires path == Path(s) && branch == Chain(s.store.blocks, h) && n == CommonLength(path, branch) > 0
    ensures Reorganize(p, s, h)
      == if |branch| <= |path| then Ok(Reorg(false, s))
         else if |path| - n > p.maxReorgDepth then Err(ReorgTooDeep)
         else if !CanUndo(s.store.txs, Reversed(path[n..])) then Err(SpentTxMissing)
         else Ok(Reorg(true, Moved(s, Plan(Reversed(path[n..]), branch[n..]), h, s.store.blocks[h].header.bits)))
  {
  }

  /** A reorganization to a whole path moves exactly when that is reachable, and fails exactly when it is longer and
      parts too far down or the rollback lacks a transaction. */
  lemma MovesIff(env: Env, naming: string -> Tx, p: Params, s: State, h: string)
    requires Inv(env, naming, s) && Linked(s.store.blocks) && s.tip.Some? && Rooted(s.store.blocks, h)
    ensures Reorganize(p, s, h).Ok? && Reorganize(p, s, h).value.moved <==> Reachable(p, s, h)
    ensures Reorganize(p, s, h).Err? <==> |Path(s)| < |Chain(s.store.blocks, h)| && !Reachable(p, s, h)
  {
    var path, branch := Path(s), Chain(s.store.blocks, h);
    PathsMeet(env, naming, s.store.blocks, s.tip.value, h);
    Decided(p, s, h, path, branch, CommonLength(path, branch));
  }

  /** The reorganization moves and the path is then the branch. */
  ghost predicate Adopted(p: Params, s: State, h: string)
    requires Linked(s.store.blocks)
  {
    && !Stale(s) && Reorganize(p, s, h).Ok? && Reorganize(p, s, h).value.moved
    && var s' := Reorganize(p, s, h).value.state;
       Linked(s'.store.blocks) && Path(s') == Chain(s.store.blocks, h)
  }

  /** An adoptable branch is adopted. */
  lemma LongerBranchAdopted(env: Env, naming: string -> Tx, p: Params, s: State, h: string)
    requires Adoptable(env, naming, p, s, h)
    ensures Adopted(p, s, h)
  {
    StaleIff(env, naming, s);
    MovesIff(env, naming, p, s, h);
    ReorganizeKeeps(env, naming, p, s, h);
  }
}
