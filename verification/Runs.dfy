/** What every run of insertions, stored fork blocks and reorganizations keeps. */
module Runs {
  import opened Domain
  import opened Ledger
  import opened Storage
  import opened Chains
  import opened TxRules
  import opened Acceptance
  import opened Consensus
  import opened Rewind

  // ---- what is taken for granted about submitted blocks ----

  /** The block's height is one above every header that hashes to its parent reference. */
  ghost predicate HeightFits(env: Env, h: Header) {
    h.index > 0 ==> forall parent: Header :: env.headerHash(parent) == h.previous ==> h.index == parent.index + 1
  }

  ghost predicate WellNamed(env: Env, naming: string -> Tx, b: Block) {
    HeightFits(env, b.header) && Named(naming, b.txs)
  }

  /** What insertion does not check: txids not already unspent, nothing consumed twice, no spend within the block. */
  ghost predicate Separate(u: UtxoSet, b: Block) {
    FreshTxids(u, b.txs) && SpentOnce(b.txs) && !ChainedSpend(b.txs)
  }

  // ---- the invariant ----

  ghost predicate BlockStored(env: Env, naming: string -> Tx, h: string, b: Block) {
    b.hash == h && env.headerHash(b.header) == h && CheckpointOk(b.header.index, h) && WellNamed(env, naming, b)
  }

  ghost predicate BlocksStored(env: Env, naming: string -> Tx, blocks: Blocks) {
    forall h :: h in blocks ==> BlockStored(env, naming, h, blocks[h])
  }

  lemma StoredIsLinked(env: Env, naming: string -> Tx, blocks: Blocks)
    requires BlocksStored(env, naming, blocks)
    ensures Linked(blocks)
  {
    forall h | h in blocks && blocks[h].header.index > 0 && blocks[h].header.previous in blocks
      ensures blocks[h].header.index == blocks[blocks[h].header.previous].header.index + 1
    {
      var parent := blocks[h].header.previous;
      assert BlockStored(env, naming, h, blocks[h]) && BlockStored(env, naming, parent, blocks[parent]);
    }
    assert forall h :: h in blocks ==> BlockStored(env, naming, h, blocks[h]);
  }

  /** `i:` names the path block at every height up to the tip, and nothing else. */
  ghost predicate IndexExact(index: map<nat, string>, chain: seq<Block>) {
    && (forall n: nat :: n in index <==> n < |chain|)
    && (forall n: nat :: n in index ==> index[n] == chain[n].hash)
  }

  /** The derived key spaces are what the path to the tip says they are. */
  ghost predicate OnChain(env: Env, s: State, chain: seq<Block>) {
    && Canon(env, s.store.utxos) == Fold(env, chain)
    && IndexExact(s.store.index, chain)
    && ChainOk(env, chain)
    && (if chain == [] then s.tip.None? && s.store.blocks == map[]
        else s.tip == Some(chain[|chain| - 1].hash) && s.bits == chain[|chain| - 1].header.bits)
  }

  ghost function Path(s: State): (chain: seq<Block>)
    requires Linked(s.store.blocks)
  {
    if s.tip.None? then [] else Chain(s.store.blocks, s.tip.value)
  }

  ghost predicate Inv(env: Env, naming: string -> Tx, s: State) {
    && BlocksStored(env, naming, s.store.blocks)
    && StoredNamed(naming, s.store.txs)
    && s.tip == s.store.tip
    && (StoredIsLinked(env, naming, s.store.blocks);
        (s.tip.Some? ==> Rooted(s.store.blocks, s.tip.value)) && OnChain(env, s, Path(s)))
  }

  lemma FreshDatabase(env: Env, naming: string -> Tx, bits: nat)
    ensures Inv(env, naming, State(EMPTY, None, bits))
  {
    StoredIsLinked(env, naming, EMPTY.blocks);
    assert Canon(env, map[]) == map[];
  }

  // ---- storing one more block ----

  lemma StoreOne(env: Env, naming: string -> Tx, blocks: Blocks, b: Block)
    requires BlocksStored(env, naming, blocks) && BlockStored(env, naming, b.hash, b)
    ensures BlocksStored(env, naming, blocks[b.hash := b])
  {
  }

  lemma {:induction false} PutTxsNamed(naming: string -> Tx, stored: map<string, Tx>, txs: seq<Tx>)
    requires StoredNamed(naming, stored) && Named(naming, txs)
    ensures StoredNamed(naming, PutTxs(stored, txs))
  {
    if txs != [] {
      PutTxsNamed(naming, stored, txs[..|txs| - 1]);
      assert txs[|txs| - 1] == naming(txs[|txs| - 1].txid);
    }
  }

  /** A new block leaves every rooted path as it was. */
  lemma PathKept(blocks: Blocks, b: Block, h: string)
    requires Linked(blocks) && Linked(blocks[b.hash := b]) && b.hash !in blocks && Rooted(blocks, h)
    ensures Rooted(blocks[b.hash := b], h) && Chain(blocks[b.hash := b], h) == Chain(blocks, h)
  {
    ChainEntries(blocks, h);
    ChainFrame(blocks, blocks[b.hash := b], h);
  }

  // ---- insertion ----

  lemma {:induction false} InSumOfCanon(env: Env, u: UtxoSet, inputs: seq<Input>)
    requires forall i :: 0 <= i < |inputs| ==> inputs[i].point in u
    ensures InSum(Canon(env, u), inputs) == InSum(u, inputs)
  {
    if inputs != [] {
      InSumOfCanon(env, u, inputs[..|inputs| - 1]);
    }
  }

  lemma {:induction false} SequenceOfCanon(env: Env, u: UtxoSet, txs: seq<Tx>)
    requires CaseFolds(env) && SequenceOk(env, u, txs)
    ensures SequenceOk(env, Canon(env, u), txs)
  {
    if txs != [] {
      var front, tx := txs[..|txs| - 1], txs[|txs| - 1];
      SequenceOfCanon(env, u, front);
      CanonOfApplyTxs(env, u, front);
      TxOfCanon(env, ApplyTxs(env, u, front), tx);
    }
  }

  lemma {:induction false} FeesOfCanon(env: Env, u: UtxoSet, txs: seq<Tx>)
    requires CaseFolds(env) && SequenceOk(env, u, txs) && SequenceOk(env, Canon(env, u), txs)
    ensures Fees(env, Canon(env, u), txs) == Fees(env, u, txs)
  {
    if |txs| > 1 {
      var front, tx := txs[..|txs| - 1], txs[|txs| - 1];
      FeesOfCanon(env, u, front);
      CanonOfApplyTxs(env, u, front);
      TxOfCanon(env, ApplyTxs(env, u, front), tx);
    }
  }

  lemma TxOfCanon(env: Env, w: UtxoSet, tx: Tx)
    requires TxOk(w, tx)
    ensures TxOk(Canon(env, w), tx) && InSum(Canon(env, w), tx.inputs) == InSum(w, tx.inputs)
  {
    InSumOfCanon(env, w, tx.inputs);
  }

  /** An accepted block that keeps to what insertion does not check is good on top of the path's fold. */
  lemma AcceptedOnFold(env: Env, u: UtxoSet, b: Block)
    requires CaseFolds(env) && CheckBlock(env, u, b).Ok? && Separate(u, b)
    ensures BlockOk(env, Canon(env, u), b)
    ensures Canon(env, CheckBlock(env, u, b).value) == ApplyTxs(env, Canon(env, u), b.txs)
  {
    AcceptedIsGoodIff(env, u, b);
    SequenceOfCanon(env, u, b.txs);
    FeesOfCanon(env, u, b.txs);
    InsertMatchesLedgerIff(env, u, b);
    CanonOfApplyTxs(env, u, b.txs);
  }

  /** A new block that passes the header checks names the tip as its parent, or starts an empty chain. */
  lemma PassedHeaderOnTip(env: Env, naming: string -> Tx, p: Params, s: State, b: Block, now: int)
    requires Inv(env, naming, s) && b.hash !in s.store.blocks && CheckHeader(env, p, s, b, now, false).Ok?
    ensures Linked(s.store.blocks)
    ensures if s.tip.None? then b.header.index == 0 else b.header.index > 0 && b.header.previous == s.tip.value
  {
    StoredIsLinked(env, naming, s.store.blocks);
    if s.tip.Some? {
      var blocks := s.store.blocks;
      ChainEntries(blocks, s.tip.value);
      RootedHeights(blocks, s.tip.value);
      var root := Path(s)[0];
      assert BlockStored(env, naming, root.hash, blocks[root.hash]);
    }
  }

  /** If its height fits too, it extends the tip by one. */
  lemma PassedHeaderExtends(env: Env, naming: string -> Tx, p: Params, s: State, b: Block, now: int)
    requires Inv(env, naming, s) && b.hash !in s.store.blocks && HeightFits(env, b.header)
    requires CheckHeader(env, p, s, b, now, false).Ok?
    ensures Linked(s.store.blocks) && b.header.index == |Path(s)|
    ensures env.headerHash(b.header) == b.hash && CheckpointOk(b.header.index, b.hash)
    ensures b.header.index > 0 ==> s.tip.Some? && b.header.previous == s.tip.value
  {
    PassedHeaderOnTip(env, naming, p, s, b, now);
    if s.tip.Some? {
      assert BlockStored(env, naming, s.tip.value, s.store.blocks[s.tip.value]);
    }
  }

  lemma PathExtends(blocks: Blocks, tip: Option<string>, b: Block)
    requires Linked(blocks) && Linked(blocks[b.hash := b]) && b.hash !in blocks
    requires tip.None? ==> b.header.index == 0
    requires tip.Some? ==> Rooted(blocks, tip.value) && b.header.previous == tip.value
    requires tip.Some? ==> b.header.index == blocks[tip.value].header.index + 1
    ensures Rooted(blocks[b.hash := b], b.hash)
    ensures Chain(blocks[b.hash := b], b.hash) == (if tip.None? then [] else Chain(blocks, tip.value)) + [b]
  {
    if tip.Some? {
      PathKept(blocks, b, tip.value);
    }
  }

  lemma IndexExtends(index: map<nat, string>, chain: seq<Block>, b: Block)
    requires IndexExact(index, chain) && b.header.index == |chain|
    ensures IndexExact(index[b.header.index := b.hash], chain + [b])
  {
  }

  lemma ChainOkExtends(env: Env, chain: seq<Block>, b: Block)
    requires ChainOk(env, chain) && BlockOk(env, Fold(env, chain), b)
    ensures ChainOk(env, chain + [b]) && Fold(env, chain + [b]) == ApplyTxs(env, Fold(env, chain), b.txs)
  {
    assert (chain + [b])[..|chain|] == chain;
  }

  /** Insertion keeps the invariant. */
  lemma InsertKeeps(env: Env, naming: string -> Tx, p: Params, s: State, b: Block, now: int)
    requires CaseFolds(env) && Inv(env, naming, s) && Insert(env, p, s, b, now).Ok?
    requires b.hash !in s.store.blocks ==> WellNamed(env, naming, b) && Separate(s.store.utxos, b)
    ensures Inv(env, naming, Insert(env, p, s, b, now).value)
  {
    if b.hash !in s.store.blocks {
      PassedHeaderExtends(env, naming, p, s, b, now);
      AcceptedOnFold(env, s.store.utxos, b);
      InsertEffectKeeps(env, naming, s, b, CheckBlock(env, s.store.utxos, b).value);
    }
  }

  lemma InsertEffectKeeps(env: Env, naming: string -> Tx, s: State, b: Block, view: UtxoSet)
    requires Inv(env, naming, s) && b.hash !in s.store.blocks && BlockStored(env, naming, b.hash, b)
    requires Linked(s.store.blocks) && b.header.index == |Path(s)|
    requires b.header.index > 0 ==> s.tip.Some? && b.header.previous == s.tip.value
    requires BlockOk(env, Canon(env, s.store.utxos), b)
    requires Canon(env, view) == ApplyTxs(env, Canon(env, s.store.utxos), b.txs)
    ensures Inv(env, naming, InsertEffect(s, b, view))
  {
    var s' := InsertEffect(s, b, view);
    StoreOne(env, naming, s.store.blocks, b);
    StoredIsLinked(env, naming, s'.store.blocks);
    PutTxsNamed(naming, s.store.txs, b.txs);
    PathExtends(s.store.blocks, s.tip, b);
    IndexExtends(s.store.index, Path(s), b);
    ChainOkExtends(env, Path(s), b);
    assert Path(s') == Path(s) + [b];
    assert OnChain(env, s', Path(s'));
  }

  // ---- storing a fork block ----

  /** Storing a fork block the insertion had turned away keeps the invariant and the path. */
  lemma StoreForkKeeps(env: Env, naming: string -> Tx, p: Params, s: State, b: Block, now: int)
    requires Inv(env, naming, s) && StoreFork(env, p, s, b, now).Ok?
    requires TurnedAway(env, p, s, b, now) && WellNamed(env, naming, b)
    ensures Inv(env, naming, StoreFork(env, p, s, b, now).value)
    ensures Linked(s.store.blocks) && Linked(StoreFork(env, p, s, b, now).value.store.blocks)
    ensures Path(StoreFork(env, p, s, b, now).value) == Path(s)
  {
    var s' := StoreFork(env, p, s, b, now).value;
    StoreOne(env, naming, s.store.blocks, b);
    StoredIsLinked(env, naming, s.store.blocks);
    StoredIsLinked(env, naming, s'.store.blocks);
    PutTxsNamed(naming, s.store.txs, b.txs);
    assert s.tip.Some?;
    PathKept(s.store.blocks, b, s.tip.value);
    assert OnChain(env, s', Path(s'));
  }

  // ---- reorganization ----

  /** The path of a longer block that shares something with the tip's path is rooted too. */
  lemma SharedRoot(blocks: Blocks, tip: string, h: string)
    requires Linked(blocks) && Rooted(blocks, tip) && h in blocks
    requires CommonLength(Chain(blocks, tip), Chain(blocks, h)) > 0
    ensures Rooted(blocks, h)
  {
    var main, fork := Chain(blocks, tip), Chain(blocks, h);
    PrefixElements(main, fork, CommonLength(main, fork));
    RootedHeights(blocks, tip);
    ChainHeights(blocks, h);
    ChainHeights(blocks, tip);
  }

  function HashesOf(blocks: seq<Block>): (hs: set<string>)
    ensures forall i :: 0 <= i < |blocks| ==> blocks[i].hash in hs
    ensures forall h :: h in hs ==> exists i :: 0 <= i < |blocks| && blocks[i].hash == h
  {
    set i | 0 <= i < |blocks| :: blocks[i].hash
  }

  lemma HashesSplit(blocks: seq<Block>)
    requires blocks != []
    ensures HashesOf(blocks) == HashesOf(blocks[..|blocks| - 1]) + {blocks[|blocks| - 1].hash}
  {
    var front := blocks[..|blocks| - 1];
    assert forall i :: 0 <= i < |front| ==> front[i] == blocks[i];
  }

  /** Rolling back removes the blocks from `b:` and adds nothing to `t:`. */
  lemma {:induction false} UndoRemoves(stored: map<string, Tx>, s: Store, blocks: seq<Block>)
    ensures var r := UndoBlocks(stored, s, blocks);
      && r.blocks == s.blocks - HashesOf(blocks)
      && (forall id :: id in r.txs ==> id in s.txs && r.txs[id] == s.txs[id])
      && r.tip == s.tip
  {
    if blocks == [] {
      assert HashesOf(blocks) == {} && s.blocks - {} == s.blocks;
    } else {
      UndoRemoves(stored, s, blocks[..|blocks| - 1]);
      HashesSplit(blocks);
    }
  }

  lemma {:induction false} ReplayKeepsRest(s: Store, blocks: seq<Block>)
    ensures var r := ReplayBlocks(s, blocks); r.blocks == s.blocks && r.txs == s.txs && r.tip == s.tip
  {
    if blocks != [] {
      ReplayKeepsRest(s, blocks[..|blocks| - 1]);
    }
  }

  lemma {:induction false} UndoIndex(stored: map<string, Tx>, s: Store, chain: seq<Block>, n: nat)
    requires n <= |chain| && IndexExact(s.index, chain)
    requires forall i :: 0 <= i < |chain| ==> chain[i].header.index == i
    ensures IndexExact(UndoBlocks(stored, s, Reversed(chain[n..])).index, chain[..n])
    decreases |chain| - n
  {
    if n == |chain| {
      assert Reversed(chain[n..]) == [] && chain[..n] == chain;
    } else {
      UndoIndex(stored, s, chain, n + 1);
      UndoBlocksOldest(stored, s, chain[n..]);
      assert chain[n..][1..] == chain[n + 1..];
    }
  }

  lemma {:induction false} ReplayIndex(s: Store, chain: seq<Block>, n: nat)
    requires n <= |chain| && IndexExact(s.index, chain[..n])
    requires forall i :: 0 <= i < |chain| ==> chain[i].header.index == i
    ensures IndexExact(ReplayBlocks(s, chain[n..]).index, chain)
  {
    if n == |chain| {
      assert chain[n..] == [] && chain[..n] == chain;
    } else {
      var front, b := chain[..|chain| - 1], chain[|chain| - 1];
      assert front[..n] == chain[..n];
      ReplayIndex(s, front, n);
      assert chain[n..][..|chain[n..]| - 1] == front[n..] && chain == front + [b];
      IndexExtends(ReplayBlocks(s, front[n..]).index, front, b);
    }
  }

  /** No block of the new path is among those rolled back. */
  lemma NewPathSurvives(blocks: Blocks, tip: string, h: string, i: nat, j: nat)
    requires Linked(blocks) && i < |Chain(blocks, h)|
    requires CommonLength(Chain(blocks, tip), Chain(blocks, h)) <= j < |Chain(blocks, tip)|
    ensures Chain(blocks, h)[i].hash != Chain(blocks, tip)[j].hash
  {
    if Chain(blocks, h)[i].hash == Chain(blocks, tip)[j].hash {
      SharedBlock(blocks, tip, h, j, i);
    }
  }

  /** The blocks a reorganization from tip to h rolls back, newest first. */
  ghost function Gone(blocks: Blocks, tip: string, h: string): (gone: seq<Block>)
    requires Linked(blocks)
  {
    var main := Chain(blocks, tip);
    Reversed(main[CommonLength(main, Chain(blocks, h))..])
  }

  lemma NoneGone(blocks: Blocks, tip: string, h: string, i: nat)
    requires Linked(blocks) && i < |Chain(blocks, h)|
    ensures forall k :: 0 <= k < |Gone(blocks, tip, h)| ==> Gone(blocks, tip, h)[k].hash != Chain(blocks, h)[i].hash
  {
    var main := Chain(blocks, tip);
    forall k | 0 <= k < |Gone(blocks, tip, h)|
      ensures Gone(blocks, tip, h)[k].hash != Chain(blocks, h)[i].hash
    {
      NewPathSurvives(blocks, tip, h, i, |main| - 1 - k);
    }
  }

  lemma StillStored(env: Env, naming: string -> Tx, blocks: Blocks, fewer: Blocks)
    requires BlocksStored(env, naming, blocks) && forall h :: h in fewer ==> h in blocks && fewer[h] == blocks[h]
    ensures BlocksStored(env, naming, fewer) && Linked(fewer)
  {
    forall h | h in fewer
      ensures BlockStored(env, naming, h, fewer[h])
    {
      assert BlockStored(env, naming, h, blocks[h]);
    }
    StoredIsLinked(env, naming, fewer);
  }

  /** The path to the new tip is untouched by rolling the old branch back. */
  lemma NewPathKept(blocks: Blocks, fewer: Blocks, tip: string, h: string, gone: seq<Block>)
    requires Linked(blocks) && Linked(fewer) && Rooted(blocks, h)
    requires gone == Gone(blocks, tip, h) && fewer == blocks - HashesOf(gone)
    ensures Rooted(fewer, h) && Chain(fewer, h) == Chain(blocks, h)
  {
    var fork := Chain(blocks, h);
    forall i | 0 <= i < |fork|
      ensures fork[i].hash in fewer && fewer[fork[i].hash] == fork[i]
    {
      ChainEntries(blocks, h);
      NoneGone(blocks, tip, h, i);
      Survives(blocks, gone, fewer, fork[i]);
    }
    ChainFrame(blocks, fewer, h);
  }

  lemma Survives(blocks: Blocks, gone: seq<Block>, fewer: Blocks, b: Block)
    requires fewer == blocks - HashesOf(gone) && b.hash in blocks && blocks[b.hash] == b
    requires forall k :: 0 <= k < |gone| ==> gone[k].hash != b.hash
    ensures b.hash in fewer && fewer[b.hash] == b
  {
  }

  lemma PathNamed(env: Env, naming: string -> Tx, blocks: Blocks, h: string)
    requires BlocksStored(env, naming, blocks) && Linked(blocks)
    ensures forall i :: 0 <= i < |Chain(blocks, h)| ==> Named(naming, Chain(blocks, h)[i].txs)
  {
    ChainEntries(blocks, h);
    forall i | 0 <= i < |Chain(blocks, h)|
      ensures Named(naming, Chain(blocks, h)[i].txs)
    {
      var b := Chain(blocks, h)[i];
      assert BlockStored(env, naming, b.hash, blocks[b.hash]);
    }
  }

  ghost function Applied(blocks: Blocks, tip: string, h: string): (apply: seq<Block>)
    requires Linked(blocks)
  {
    var fork := Chain(blocks, h);
    fork[CommonLength(Chain(blocks, tip), fork)..]
  }

  /** Rolling back to the fork point and replaying the other branch leaves exactly that branch's fold and index. */
  lemma MovedOnChain(env: Env, naming: string -> Tx, s: Store, tip: string, h: string, plan: Plan)
    requires BlocksStored(env, naming, s.blocks) && StoredNamed(naming, s.txs) && Linked(s.blocks)
    requires Rooted(s.blocks, tip) && Rooted(s.blocks, h)
    requires ChainOk(env, Chain(s.blocks, tip)) && ChainOk(env, Chain(s.blocks, h))
    requires Canon(env, s.utxos) == Fold(env, Chain(s.blocks, tip)) && IndexExact(s.index, Chain(s.blocks, tip))
    requires plan == Plan(Gone(s.blocks, tip, h), Applied(s.blocks, tip, h)) && CanUndo(s.txs, plan.rollback)
    ensures var r := ReplayBlocks(UndoBlocks(s.txs, s, plan.rollback), plan.apply);
      Canon(env, r.utxos) == Fold(env, Chain(s.blocks, h)) && IndexExact(r.index, Chain(s.blocks, h))
  {
    var main, fork := Chain(s.blocks, tip), Chain(s.blocks, h);
    var n := CommonLength(main, fork);
    PathNamed(env, naming, s.blocks, tip);
    RollbackReachesPrefix(env, naming, s, main, n);
    RootedHeights(s.blocks, tip);
    UndoIndex(s.txs, s, main, n);
    var undone := UndoBlocks(s.txs, s, plan.rollback);
    ReplayReachesChain(env, undone, fork, n);
    RootedHeights(s.blocks, h);
    ReplayIndex(undone, fork, n);
  }

  /** Reorganization keeps the invariant; when it moves, the path is the new block's. */
  lemma ReorganizeKeeps(env: Env, naming: string -> Tx, p: Params, s: State, h: string)
    requires Inv(env, naming, s) && Linked(s.store.blocks) && Reorganize(p, s, h).Ok?
    requires h in s.store.blocks && Rooted(s.store.blocks, h) ==> ChainOk(env, Chain(s.store.blocks, h))
    ensures var r := Reorganize(p, s, h).value;
      && Inv(env, naming, r.state)
      && (if r.moved then Linked(r.state.store.blocks) && Path(r.state) == Chain(s.store.blocks, h) else r.state == s)
  {
    if Reorganize(p, s, h).value.moved {
      var plan := MovedParts(p, s, h);
      SharedRoot(s.store.blocks, s.tip.value, h);
      MovedKeeps(env, naming, s, h, plan);
    } else {
      NotMoved(p, s, h);
    }
  }

  lemma NotMoved(p: Params, s: State, h: string)
    requires Linked(s.store.blocks) && Reorganize(p, s, h).Ok? && !Reorganize(p, s, h).value.moved
    ensures Reorganize(p, s, h).value.state == s
  {
  }

  lemma MovedParts(p: Params, s: State, h: string) returns (plan: Plan)
    requires Linked(s.store.blocks) && Reorganize(p, s, h).Ok? && Reorganize(p, s, h).value.moved
    ensures s.tip.Some? && s.tip.value in s.store.blocks && h in s.store.blocks
    ensures CommonLength(Chain(s.store.blocks, s.tip.value), Chain(s.store.blocks, h)) > 0
    ensures plan == Plan(Gone(s.store.blocks, s.tip.value, h), Applied(s.store.blocks, s.tip.value, h))
    ensures CanUndo(s.store.txs, plan.rollback)
    ensures Reorganize(p, s, h).value.state == Moved(s, plan, h, s.store.blocks[h].header.bits)
  {
    plan := PlanOf(p, s.store.blocks, s.tip.value, h).value;
  }

  lemma MovedKeeps(env: Env, naming: string -> Tx, s: State, h: string, plan: Plan)
    requires Inv(env, naming, s) && Linked(s.store.blocks) && s.tip.Some? && Rooted(s.store.blocks, h)
    requires ChainOk(env, Chain(s.store.blocks, h))
    requires plan == Plan(Gone(s.store.blocks, s.tip.value, h), Applied(s.store.blocks, s.tip.value, h))
    requires CanUndo(s.store.txs, plan.rollback)
    ensures var s' := Moved(s, plan, h, s.store.blocks[h].header.bits);
      Inv(env, naming, s') && Linked(s'.store.blocks) && Path(s') == Chain(s.store.blocks, h)
  {
    MovedBlocks(env, naming, s, plan, h);
    MovedOnChain(env, naming, s.store, s.tip.value, h, plan);
    ChainEntries(s.store.blocks, h);
    Assemble(env, naming, Moved(s, plan, h, s.store.blocks[h].header.bits), Chain(s.store.blocks, h));
  }

  lemma MovedBlocks(env: Env, naming: string -> Tx, s: State, plan: Plan, h: string)
    requires BlocksStored(env, naming, s.store.blocks) && StoredNamed(naming, s.store.txs)
    requires Linked(s.store.blocks) && s.tip.Some? && Rooted(s.store.blocks, h)
    requires plan.rollback == Gone(s.store.blocks, s.tip.value, h)
    ensures var s' := Moved(s, plan, h, s.store.blocks[h].header.bits);
      && BlocksStored(env, naming, s'.store.blocks) && StoredNamed(naming, s'.store.txs)
      && Linked(s'.store.blocks)
      && Rooted(s'.store.blocks, h) && Chain(s'.store.blocks, h) == Chain(s.store.blocks, h)
  {
    var undone := UndoBlocks(s.store.txs, s.store, plan.rollback);
    UndoRemoves(s.store.txs, s.store, plan.rollback);
    ReplayKeepsRest(undone, plan.apply);
    StillStored(env, naming, s.store.blocks, undone.blocks);
    NewPathKept(s.store.blocks, undone.blocks, s.tip.value, h, plan.rollback);
  }

  lemma Assemble(env: Env, naming: string -> Tx, s: State, chain: seq<Block>)
    requires BlocksStored(env, naming, s.store.blocks) && StoredNamed(naming, s.store.txs) && Linked(s.store.blocks)
    requires s.tip == s.store.tip && s.tip.Some? && Rooted(s.store.blocks, s.tip.value)
    requires Chain(s.store.blocks, s.tip.value) == chain && OnChain(env, s, chain)
    ensures Inv(env, naming, s) && Path(s) == chain
  {
  }
}
