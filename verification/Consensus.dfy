/** What the node's three operations do to its state, as functions: insertion, storing a fork block, reorganization. */
module Consensus {
  import opened Domain
  import opened Compact
  import opened Retarget
  import opened MedianTime
  import opened Merkle
  import opened Ledger
  import opened Storage
  import opened Chains
  import opened TxRules

  /** The only configured checkpoint is the genesis block. */
  const GENESIS_HASH: string := "0047bb75cef130263090ec45c9e5b464ab0f56c556821cb3a40d59dbf31e7216"

  predicate CheckpointOk(height: nat, hash: string) { height == 0 ==> hash == GENESIS_HASH }

  datatype Params = Params(interval: int, maxReorgDepth: nat, maxFuture: int)

  /** The database together with the in-memory `chain_tip` and `difficulty`. */
  datatype State = State(store: Store, tip: Option<string>, bits: nat)

  // ---- header rules ----

  /** The n headers below `index` on the indexed chain, newest first, if all are there. */
  function WindowBelow(s: Store, index: nat, n: nat): (w: Option<seq<Header>>)
    requires n <= index
    ensures w.Some? ==> |w.value| == n
  {
    if n == 0 then Some([])
    else
      match WindowBelow(s, index, n - 1)
      case None => None
      case Some(w) =>
        if index - n in s.index && s.index[index - n] in s.blocks
        then Some(w + [s.blocks[s.index[index - n]].header]) else None
  }

  function ExpectedBits(p: Params, s: State, index: nat): (bits: nat) {
    if index < WINDOW then s.bits
    else
      match WindowBelow(s.store, index, WINDOW)
      case None => s.bits
      case Some(w) => NextBits(w, p.interval)
  }

  /** Timestamps of up to n stored blocks walking back from h, newest first. */
  function TimesBack(blocks: Blocks, h: string, n: nat): (ts: seq<int>)
    decreases n
  {
    if n == 0 || h !in blocks then []
    else if blocks[h].header.index == 0 then [blocks[h].header.timestamp]
    else [blocks[h].header.timestamp] + TimesBack(blocks, blocks[h].header.previous, n - 1)
  }

  predicate MedianTimeOk(blocks: Blocks, b: Block) {
    var ts := TimesBack(blocks, b.header.previous, SPAN);
    ts == [] || b.header.timestamp > Median(ts)
  }

  function RootOf(env: Env, txs: seq<Tx>): (root: string) {
    if txs == [] then env.emptyRoot
    else env.hexOf(Root(env.pairHash, seq(|txs|, i requires 0 <= i < |txs| => env.leafOf(txs[i].txid))))
  }

  predicate ValidPow(env: Env, hash: string, bits: nat) {
    env.hashValue(hash).Some? && Decode(bits) != 0 && env.hashValue(hash).value < Decode(bits)
  }

  /** Checks 1 to 8; `fork` leaves out the comparison with the tip. */
  function CheckHeader(env: Env, p: Params, s: State, b: Block, now: int, fork: bool): (r: Result<()>) {
    var h := b.header;
    if env.headerHash(h) != b.hash then Err(HeaderHashMismatch)
    else if !CheckpointOk(h.index, b.hash) then Err(CheckpointViolation)
    else if !ValidPow(env, b.hash, h.bits) then Err(InvalidPow)
    else if h.index > 0 && h.bits != ExpectedBits(p, s, h.index) then Err(DifficultyMismatch)
    else if h.index > 0 && h.previous !in s.store.blocks then Err(PreviousNotFound)
    else if h.index > 0 && !fork && s.tip.Some? && h.previous != s.tip.value then Err(ForkDetected)
    else if h.timestamp > now + p.maxFuture then Err(TooFarInFuture)
    else if h.index > 0 && !ProgressionOk(Decode(s.store.blocks[h.previous].header.bits), Decode(h.bits)) then
      Err(TargetJump)
    else if RootOf(env, b.txs) != h.merkleRoot then Err(MerkleMismatch)
    else if h.index > 0 && !MedianTimeOk(s.store.blocks, b) then Err(MedianTimePast)
    else Ok(())
  }

  // ---- the three operations ----

  function PutTxs(stored: map<string, Tx>, txs: seq<Tx>): (m: map<string, Tx>) {
    if txs == [] then stored else PutTxs(stored, txs[..|txs| - 1])[txs[|txs| - 1].txid := txs[|txs| - 1]]
  }

  function InsertEffect(s: State, b: Block, view: UtxoSet): (s': State) {
    State(Store(s.store.blocks[b.hash := b],
                PutTxs(s.store.txs, b.txs),
                view,
                s.store.index[b.header.index := b.hash],
                Some(b.hash)),
          Some(b.hash),
          b.header.bits)
  }

  /** validate_and_insert_block: a block that is already stored is silently accepted. */
  function Insert(env: Env, p: Params, s: State, b: Block, now: int): (r: Result<State>) {
    if b.hash in s.store.blocks then Ok(s)
    else
      var _ :- CheckHeader(env, p, s, b, now, false);
      var view :- CheckBlock(env, s.store.utxos, b);
      Ok(InsertEffect(s, b, view))
  }

  /** Insertion refuses the block because its parent is stored but is not the tip. */
  predicate TurnedAway(env: Env, p: Params, s: State, b: Block, now: int) {
    b.hash !in s.store.blocks && CheckHeader(env, p, s, b, now, false) == Err(ForkDetected)
  }

  predicate Highest(blocks: Blocks, h: string) {
    h in blocks && forall x :: x in blocks ==> blocks[x].header.index <= blocks[h].header.index
  }

  /** recover_tip: both tips point at a highest stored block, and nothing else changes. */
  predicate Recovered(s: State, s': State) {
    s' == s.(store := s.store.(tip := s'.tip), tip := s'.tip) && s'.tip.Some? && Highest(s.store.blocks, s'.tip.value)
  }

  /** Opening a database: the stored tip, and the difficulty of its block if that can be read. */
  function Opened(store: Store): (s: State) {
    State(store, store.tip,
          if store.tip.Some? && store.tip.value in store.blocks then store.blocks[store.tip.value].header.bits
          else POW_LIMIT_BITS)
  }

  /** validate_fork_block: stores the block and its transactions, and nothing else. */
  function StoreFork(env: Env, p: Params, s: State, b: Block, now: int): (r: Result<State>) {
    var _ :- CheckHeader(env, p, s, b, now, true);
    Ok(s.(store := s.store.(blocks := s.store.blocks[b.hash := b], txs := PutTxs(s.store.txs, b.txs))))
  }

  function Reversed(bs: seq<Block>): (r: seq<Block>)
    ensures |r| == |bs| && forall i :: 0 <= i < |r| ==> r[i] == bs[|bs| - 1 - i]
  {
    seq(|bs|, i requires 0 <= i < |bs| => bs[|bs| - 1 - i])
  }

  datatype Reorg = Reorg(moved: bool, state: State)

  /** The tip looks too low for the number of stored blocks, so the node looks for a better one first. */
  predicate Stale(s: State) {
    s.tip.Some? && s.tip.value in s.store.blocks
    && |s.store.blocks| > 100 && s.store.blocks[s.tip.value].header.index + 1 < |s.store.blocks| / 2
  }

  /** The blocks to roll back, newest first, and the blocks to apply, oldest first. */
  datatype Plan = Plan(rollback: seq<Block>, apply: seq<Block>)

  ghost function PlanOf(p: Params, blocks: Blocks, tip: string, h: string): (r: Result<Plan>)
    requires Linked(blocks)
  {
    var main, fork := Chain(blocks, tip), Chain(blocks, h);
    var n := CommonLength(main, fork);
    if n == 0 then Err(NoCommonAncestor)
    else if |main| - n > p.maxReorgDepth then Err(ReorgTooDeep)
    else Ok(Plan(Reversed(main[n..]), fork[n..]))
  }

  function Moved(s: State, plan: Plan, h: string, bits: nat): (s': State) {
    State(ReplayBlocks(UndoBlocks(s.store.txs, s.store, plan.rollback), plan.apply).(tip := Some(h)), Some(h), bits)
  }

  /** reorganize_if_needed, on a tip that is not stale. */
  ghost function Reorganize(p: Params, s: State, h: string): (r: Result<Reorg>)
    requires Linked(s.store.blocks)
  {
    var blocks := s.store.blocks;
    if s.tip.None? then Ok(Reorg(false, s))
    else if s.tip.value !in blocks then Err(TipHeaderMissing)
    else if h !in blocks then Err(UnknownBlock)
    else if blocks[s.tip.value].header.index >= blocks[h].header.index then Ok(Reorg(false, s))
    else
      var plan :- PlanOf(p, blocks, s.tip.value, h);
      if !CanUndo(s.store.txs, plan.rollback) then Err(SpentTxMissing)
      else Ok(Reorg(true, Moved(s, plan, h, blocks[h].header.bits)))
  }
}
