/** A small world in which a concrete run of the node can be followed: a hash that shows height and time, one target
    for all blocks, and what inserting, storing and moving do there. */
module RivalWorld {
  import opened Domain
  import opened Bytes
  import opened Retarget
  import opened MedianTime
  import Merkle
  import opened Rewards
  import opened Ledger
  import opened Storage
  import opened Chains
  import opened TxRules
  import opened Acceptance
  import opened Consensus
  import opened Rewind
  import opened Runs
  import opened History
  import opened Sources

  // ---- the world of the run ----

  /** A hash that shows the height and the time. */
  function HashOf(index: nat, time: int): (h: string)
    ensures |h| > 16
  {
    if index == 0 then GENESIS_HASH else seq(16 + index, _ => 'h') + seq(if time < 0 then 0 else time, _ => 't')
  }

  lemma HigherDiffers(i: nat, s: int, j: nat, t: int)
    requires i < j
    ensures HashOf(i, s) != HashOf(j, t)
  {
    var a, b := HashOf(i, s), HashOf(j, t);
    if i == 0 {
      assert |GENESIS_HASH| == 64 && GENESIS_HASH[63] == '6';
      assert |b| == 64 ==> b[63] == 'h' || b[63] == 't';
    } else {
      assert b[16 + i] == 'h';
      assert |a| > 16 + i ==> a[16 + i] == 't';
    }
  }

  lemma HashShows(i: nat, s: int, j: nat, t: int)
    requires HashOf(i, s) == HashOf(j, t)
    ensures i == j
    ensures i > 0 && s > 0 ==> s == t
  {
    if i < j {
      HigherDiffers(i, s, j, t);
    } else if j < i {
      HigherDiffers(j, t, i, s);
    } else if i > 0 {
      assert |HashOf(i, s)| == 16 + i + if s < 0 then 0 else s;
      assert |HashOf(j, t)| == 16 + j + if t < 0 then 0 else t;
    }
  }

  function World(): (env: Env) {
    Env((h: Header) => HashOf(h.index, h.timestamp), (s: string) => Some(0), (s: string) => s,
        (s: string, t: string) => s, (s: string) => "r", "", (tx: Tx) => true, (pk: string) => Some(pk),
        (s: string) => s, (tx: Tx) => 0)
  }

  function Bare(id: string): (tx: Tx) { Tx(id, [], [], 0) }

  function Pay(id: string, p: OutPoint, outputs: seq<Output>): (tx: Tx) { Tx(id, [Input(p, "m", None)], outputs, 0) }

  const FUND_ID := "genesis-fund"
  const SHARED_ID := "shared-payment"
  const LATER_ID := "later-payment"
  const MINT_ID := "minted-coins"
  const GAIN_ID := "doubled-gain"
  const FIRST_ID := "first-spend"
  const SECOND_ID := "second-spend"

  const FUND: Tx := Tx(FUND_ID, [], [Output("m", 2 * BASE_MIN_FEE)], 0)
  const SHARED: Tx := Pay(SHARED_ID, OutPoint(FUND_ID, 0), [Output("m", BASE_MIN_FEE)])
  const LATER: Tx := Pay(LATER_ID, OutPoint(SHARED_ID, 0), [])

  /** Pays out more than there will ever be, and takes in nothing. */
  const MINT: Tx := Tx(MINT_ID, [], [Output("m", MAX_SUPPLY + 1)], 0)

  /** A coinbase that takes the reward and the value of the genesis output twice, and two spends of that output. */
  const GAIN: Tx := Tx(GAIN_ID, [], [Output("m", INITIAL_REWARD + 4 * BASE_MIN_FEE)], 0)
  const FIRST: Tx := Pay(FIRST_ID, OutPoint(FUND_ID, 0), [])
  const SECOND: Tx := Pay(SECOND_ID, OutPoint(FUND_ID, 0), [])

  function Naming(id: string): (tx: Tx) {
    if id == FUND_ID then FUND
    else if id == SHARED_ID then SHARED
    else if id == LATER_ID then LATER
    else if id == MINT_ID then MINT
    else if id == GAIN_ID then GAIN
    else if id == FIRST_ID then FIRST
    else if id == SECOND_ID then SECOND
    else Bare(id)
  }

  function Genesis(bits: nat): (b: Block) { Block(Header(0, "", "r", 0, 0, bits), [FUND], GENESIS_HASH) }

  function Last(chain: seq<Block>): (b: Block)
    requires chain != []
  {
    chain[|chain| - 1]
  }

  /** The block made at `time` on top of a path, with the same target, an empty coinbase and these payments. */
  function Made(path: seq<Block>, time: int, pays: seq<Tx>): (b: Block)
    requires path != []
  {
    var h := HashOf(|path|, time);
    Block(Header(|path|, Last(path).hash, "r", time, 0, Last(path).header.bits), [Bare(h)] + pays, h)
  }

  // ---- headers pass ----

  lemma MedianBelow(ts: seq<int>, t: int)
    requires |ts| > 0 && forall i :: 0 <= i < |ts| ==> ts[i] < t
    ensures Median(ts) < t
  {
    var sorted := Sort(ts);
    SortPermutes(ts);
    forall i | 0 <= i < |sorted|
      ensures sorted[i] < t
    {
      assert sorted[i] in multiset(ts);
    }
  }

  lemma {:induction false} TimesBelow(blocks: Blocks, h: string, n: nat, t: int)
    requires forall x :: x in blocks ==> blocks[x].header.timestamp < t
    ensures forall i :: 0 <= i < |TimesBack(blocks, h, n)| ==> TimesBack(blocks, h, n)[i] < t
    decreases n
  {
    if n > 0 && h in blocks && blocks[h].header.index > 0 {
      TimesBelow(blocks, blocks[h].header.previous, n - 1, t);
    }
  }

  /** Everything stored has one and the same target and is earlier than t. */
  ghost predicate Early(s: State, t: int) {
    InRange(s.bits)
    && forall h :: h in s.store.blocks ==>
         s.store.blocks[h].header.bits == s.bits && s.store.blocks[h].header.timestamp < t
  }

  /** A block with that target, later than everything stored, is at most refused for not being on the tip. */
  lemma Verdict(p: Params, s: State, b: Block, fork: bool)
    requires p.maxFuture >= 0 && Early(s, b.header.timestamp) && b.txs != []
    requires 0 < b.header.index < WINDOW && b.hash == HashOf(b.header.index, b.header.timestamp)
    requires b.header.bits == s.bits && b.header.merkleRoot == "r" && b.header.previous in s.store.blocks
    ensures CheckHeader(World(), p, s, b, b.header.timestamp, fork)
      == if !fork && s.tip.Some? && b.header.previous != s.tip.value then Err(ForkDetected) else Ok(())
  {
    var ts := TimesBack(s.store.blocks, b.header.previous, SPAN);
    TimesBelow(s.store.blocks, b.header.previous, SPAN, b.header.timestamp);
    if ts != [] {
      MedianBelow(ts, b.header.timestamp);
    }
    assert World().hexOf(Merkle.Root(World().pairHash,
      seq(|b.txs|, i requires 0 <= i < |b.txs| => World().leafOf(b.txs[i].txid)))) == "r";
  }

  // ---- transactions pass ----

  /** No unspent output is of this transaction. */
  ghost predicate Unused(u: UtxoSet, id: string) { forall q :: q in u ==> q.txid != id }

  lemma RewardAt(index: nat)
    requires index < WINDOW
    ensures BlockReward(index) == INITIAL_REWARD
  {
    assert Cut32(0) == 0;
  }

  lemma BareEffect(u: UtxoSet, id: string)
    ensures ApplyTxs(World(), u, [Bare(id)]) == u
    ensures CheckTxs(World(), u, [Bare(id)]) == Ok(Progress(u, map[], 0))
  {
    assert [Bare(id)][..0] == [] && Spent(Bare(id)) == {} && Coins(World(), Bare(id)) == map[];
    assert u - {} == u && u + map[] == u;
  }

  /** A block with nothing but an empty coinbase is good and leaves the unspent outputs alone. */
  lemma BarePasses(u: UtxoSet, b: Block)
    requires b.txs == [Bare(b.hash)] && b.header.index < WINDOW && Unused(u, b.hash)
    ensures CheckBlock(World(), u, b).Ok? && Separate(u, b) && BlockOk(World(), u, b)
    ensures ApplyTxs(World(), u, b.txs) == u
  {
    BareEffect(u, b.hash);
    RewardAt(b.header.index);
    assert OutSum(b.txs[0].outputs) == 0;
    assert Spent(b.txs[0]) == {} && Points(b.txs[0]) == {};
    AcceptedIsGoodIff(World(), u, b);
  }

  /** The transaction takes one coin of at most twice the minimum fee and pays exactly that fee. */
  ghost predicate Pays(u: UtxoSet, tx: Tx) {
    && |tx.inputs| == 1 && tx == Pay(tx.txid, tx.inputs[0].point, tx.outputs)
    && tx.inputs[0].point in u && u[tx.inputs[0].point].to == "m"
    && u[tx.inputs[0].point].amount == OutSum(tx.outputs) + BASE_MIN_FEE <= 2 * BASE_MIN_FEE
    && Unused(u, tx.txid)
  }

  /** Where the pass finds a coin: among the outputs made in the block first. */
  ghost predicate Finds(u: UtxoSet, from: Progress, q: OutPoint, coin: Utxo) {
    if q in from.made then from.made[q] == coin else q in u && u[q] == coin
  }

  /** Where the pass stands after a transaction that takes this one coin and pays this fee. */
  function Next(from: Progress, tx: Tx, q: OutPoint, fee: nat): (to: Progress) {
    Progress((if q in from.made then from.view else from.view - {q}) + Coins(World(), tx),
             from.made - {q} + Coins(World(), tx),
             from.fees + fee)
  }

  /** A transaction that takes one coin and pays at least the minimum fee. */
  lemma OneCoinPasses(u: UtxoSet, from: Progress, tx: Tx, q: OutPoint, coin: Utxo, fee: nat)
    requires tx == Pay(tx.txid, q, tx.outputs) && Finds(u, from, q, coin) && coin.to == "m"
    requires coin.amount == OutSum(tx.outputs) + fee && BASE_MIN_FEE <= fee && from.fees + coin.amount < U256_BOUND
    ensures CheckTx(World(), u, from, tx) == Ok(Next(from, tx, q, fee))
  {
    var inp := tx.inputs[0];
    assert tx.inputs[..0] == [] && !PointIn(inp.point, []);
    assert TakeInputs(World(), u, from, []) == Ok(Intake(from.view, from.made, 0));
    assert TakeInputs(World(), u, from, tx.inputs) == TakeInput(World(), u, Intake(from.view, from.made, 0), inp);
    assert q !in from.made ==> from.made - {q} == from.made;
  }

  lemma PayChecks(u: UtxoSet, tx: Tx)
    requires Pays(u, tx)
    ensures CheckTx(World(), u, Progress(u, map[], 0), tx).Ok?
    ensures CheckTx(World(), u, Progress(u, map[], 0), tx).value.fees == BASE_MIN_FEE
  {
    var q := tx.inputs[0].point;
    OneCoinPasses(u, Progress(u, map[], 0), tx, q, u[q], BASE_MIN_FEE);
  }

  lemma PayShape(u: UtxoSet, c: Tx, tx: Tx)
    requires Pays(u, tx) && c == Bare(c.txid) && Unused(u, c.txid) && tx.txid != c.txid
    ensures FreshTxids(u, [c, tx]) && SpentOnce([c, tx]) && !ChainedSpend([c, tx])
  {
    var p := tx.inputs[0].point;
    assert Spent(c) == {} && Points(c) == {} && Spent(tx) == {p};
    assert p !in Points(tx);
  }

  /** A block with one such payment is good, and its effect is the payment's. */
  lemma PayPasses(u: UtxoSet, b: Block, tx: Tx)
    requires Pays(u, tx) && b.txs == [Bare(b.hash), tx] && b.header.index < WINDOW
    requires Unused(u, b.hash) && tx.txid != b.hash
    ensures CheckBlock(World(), u, b).Ok? && Separate(u, b) && BlockOk(World(), u, b)
    ensures ApplyTxs(World(), u, b.txs) == ApplyTx(World(), u, tx)
  {
    assert b.txs[..1] == [Bare(b.hash)];
    BareEffect(u, b.hash);
    PayChecks(u, tx);
    PayShape(u, Bare(b.hash), tx);
    RewardAt(b.header.index);
    assert OutSum(b.txs[0].outputs) == 0;
    AcceptedIsGoodIff(World(), u, b);
  }

  // ---- the three steps ----

  ghost predicate Leads(blocks: Blocks, chain: seq<Block>)
    requires Linked(blocks)
  {
    chain != [] && Rooted(blocks, Last(chain).hash) && Chain(blocks, Last(chain).hash) == chain
  }

  /** A state of the run before time t, with the tip's path and perhaps another branch. */
  ghost predicate Standing(s: State, t: int, path: seq<Block>, side: seq<Block>) {
    && Inv(World(), Naming, s) && Linked(s.store.blocks)
    && Early(s, t) && |s.store.blocks| <= t
    && Leads(s.store.blocks, path) && s.tip == Some(Last(path).hash)
    && (side != [] ==> Leads(s.store.blocks, side))
  }

  lemma SameCase(u: UtxoSet)
    ensures Canon(World(), u) == u
  {
  }

  lemma Unspent(s: State, t: int, path: seq<Block>, side: seq<Block>)
    requires Standing(s, t, path, side)
    ensures s.store.utxos == Fold(World(), path) && ChainOk(World(), path)
  {
    SameCase(s.store.utxos);
  }

  lemma HashIsNew(blocks: Blocks, t: int, index: nat)
    requires BlocksStored(World(), Naming, blocks) && t > 0 && index > 0
    requires forall h :: h in blocks ==> blocks[h].header.timestamp < t
    ensures HashOf(index, t) !in blocks
  {
    var h := HashOf(index, t);
    if h in blocks {
      assert BlockStored(World(), Naming, h, blocks[h]);
      HashShows(index, t, blocks[h].header.index, blocks[h].header.timestamp);
    }
  }

  lemma HeightShows(b: Header, below: Header)
    requires b.index == below.index + 1 && b.previous == HashOf(below.index, below.timestamp)
    ensures HeightFits(World(), b)
  {
    forall parent: Header | World().headerHash(parent) == b.previous
      ensures b.index == parent.index + 1
    {
      HashShows(parent.index, parent.timestamp, below.index, below.timestamp);
    }
  }

  lemma MadeNamed(base: seq<Block>, t: int, pays: seq<Tx>)
    requires base != [] && Named(Naming, pays)
    ensures Named(Naming, Made(base, t, pays).txs) && Naming(HashOf(|base|, t)) == Bare(HashOf(|base|, t))
  {
    var b := Made(base, t, pays);
    assert Naming(b.hash) == Bare(b.hash);
  }

  lemma LastStored(blocks: Blocks, base: seq<Block>)
    requires BlocksStored(World(), Naming, blocks) && Linked(blocks) && Leads(blocks, base)
    ensures Last(base).hash in blocks && blocks[Last(base).hash] == Last(base)
    ensures Last(base).header.index == |base| - 1
    ensures Last(base).hash == HashOf(Last(base).header.index, Last(base).header.timestamp)
  {
    ChainEntries(blocks, Last(base).hash);
    assert BlockStored(World(), Naming, Last(base).hash, Last(base));
  }

  lemma MadeIsNew(blocks: Blocks, t: int, base: seq<Block>, pays: seq<Tx>)
    requires BlocksStored(World(), Naming, blocks) && Linked(blocks) && t > 0
    requires forall h :: h in blocks ==> blocks[h].header.timestamp < t
    requires Leads(blocks, base) && Named(Naming, pays)
    ensures var b := Made(base, t, pays);
      && b.hash !in blocks && b.header.previous in blocks && BlockStored(World(), Naming, b.hash, b)
      && b.header.bits == blocks[b.header.previous].header.bits
  {
    HashIsNew(blocks, t, |base|);
    LastStored(blocks, base);
    HeightShows(Made(base, t, pays).header, Last(base).header);
    MadeNamed(base, t, pays);
  }

  lemma Grown(s: State, s': State, t: int, b: Block)
    requires BlocksStored(World(), Naming, s'.store.blocks) && Early(s, t) && |s.store.blocks| <= t
    requires b.hash !in s.store.blocks && s'.store.blocks == s.store.blocks[b.hash := b]
    requires b.header.bits == s'.bits == s.bits && b.header.timestamp == t
    ensures Linked(s'.store.blocks) && Early(s', t + 1) && |s'.store.blocks| <= t + 1
  {
    StoredIsLinked(World(), Naming, s'.store.blocks);
    OneMore(s.store.blocks, b);
  }

  lemma OneMore(blocks: Blocks, b: Block)
    requires b.hash !in blocks
    ensures |blocks[b.hash := b]| == |blocks| + 1
  {
    assert blocks[b.hash := b].Keys == blocks.Keys + {b.hash};
  }

  lemma LeadsKept(blocks: Blocks, b: Block, chain: seq<Block>)
    requires Linked(blocks) && Linked(blocks[b.hash := b]) && b.hash !in blocks && Leads(blocks, chain)
    ensures Leads(blocks[b.hash := b], chain)
  {
    PathKept(blocks, b, Last(chain).hash);
  }

  lemma LeadsOn(blocks: Blocks, b: Block, base: seq<Block>)
    requires Linked(blocks) && Linked(blocks[b.hash := b]) && b.hash !in blocks && Leads(blocks, base)
    requires b.header.previous == Last(base).hash && b.header.index == |base|
    ensures Leads(blocks[b.hash := b], base + [b])
  {
    PathExtends(blocks, Some(Last(base).hash), b);
  }

  lemma InsertOn(p: Params, s: State, t: int, path: seq<Block>, side: seq<Block>, pays: seq<Tx>) returns (s': State)
    requires p.maxFuture >= 0 && Standing(s, t, path, side) && t > 0 && |path| < WINDOW && Named(Naming, pays)
    requires var b := Made(path, t, pays); CheckBlock(World(), s.store.utxos, b).Ok? && Separate(s.store.utxos, b)
    ensures var b := Made(path, t, pays);
      && Insert(World(), p, s, b, t) == Ok(s')
      && Step(World(), Naming, p, s, Inserting(b, t), s')
      && Standing(s', t + 1, path + [b], side)
      && s'.store.txs == PutTxs(s.store.txs, b.txs) && s'.store.blocks == s.store.blocks[b.hash := b]
      && (Stocked(s.store) ==> Stocked(s'.store))
  {
    var b := Made(path, t, pays);
    MadeIsNew(s.store.blocks, t, path, pays);
    s' := InsertAccepted(p, s, b);
    InsertKeeps(World(), Naming, p, s, b, t);
    InsertStands(s, s', t, path, side, b);
    if Stocked(s.store) {
      PutStocks(s.store, b, s'.store);
    }
  }

  lemma InsertStands(s: State, s': State, t: int, path: seq<Block>, side: seq<Block>, b: Block)
    requires Linked(s.store.blocks) && Early(s, t) && |s.store.blocks| <= t && Leads(s.store.blocks, path)
    requires side != [] ==> Leads(s.store.blocks, side)
    requires Inv(World(), Naming, s') && s'.tip == Some(b.hash) && s'.bits == b.header.bits == s.bits
    requires b.hash !in s.store.blocks && s'.store.blocks == s.store.blocks[b.hash := b] && b.header.timestamp == t
    requires b.header.previous == Last(path).hash && b.header.index == |path|
    ensures Standing(s', t + 1, path + [b], side)
  {
    Grown(s, s', t, b);
    LeadsOn(s.store.blocks, b, path);
    if side != [] {
      LeadsKept(s.store.blocks, b, side);
    }
  }

  lemma InsertAccepted(p: Params, s: State, b: Block) returns (s': State)
    requires p.maxFuture >= 0 && Early(s, b.header.timestamp) && b.txs != []
    requires 0 < b.header.index < WINDOW && BlockStored(World(), Naming, b.hash, b)
    requires b.header.bits == s.bits && b.header.merkleRoot == "r" && b.header.previous in s.store.blocks
    requires b.hash !in s.store.blocks && s.tip == Some(b.header.previous)
    requires CheckBlock(World(), s.store.utxos, b).Ok? && Separate(s.store.utxos, b)
    ensures Insert(World(), p, s, b, b.header.timestamp) == Ok(s')
    ensures s' == InsertEffect(s, b, CheckBlock(World(), s.store.utxos, b).value)
    ensures Step(World(), Naming, p, s, Inserting(b, b.header.timestamp), s')
  {
    Verdict(p, s, b, false);
    s' := InsertEffect(s, b, CheckBlock(World(), s.store.utxos, b).value);
  }

  lemma ForkOn(p: Params, s: State, t: int, path: seq<Block>, side: seq<Block>, base: seq<Block>, pays: seq<Tx>)
    returns (s': State)
    requires p.maxFuture >= 0 && Standing(s, t, path, side) && t > 0 && |base| < WINDOW && Named(Naming, pays)
    requires Leads(s.store.blocks, base) && Last(base).hash != Last(path).hash
    ensures var b := Made(base, t, pays);
      && Step(World(), Naming, p, s, StoringFork(b, t), s')
      && Standing(s', t + 1, path, base + [b])
      && s'.store.txs == PutTxs(s.store.txs, b.txs)
      && (Stocked(s.store) ==> Stocked(s'.store))
  {
    var b := Made(base, t, pays);
    MadeIsNew(s.store.blocks, t, base, pays);
    s' := ForkAccepted(p, s, b);
    StoreForkKeeps(World(), Naming, p, s, b, t);
    Grown(s, s', t, b);
    if Stocked(s.store) {
      PutStocks(s.store, b, s'.store);
    }
    LeadsOn(s.store.blocks, b, base);
    LeadsKept(s.store.blocks, b, path);
  }

  lemma ForkAccepted(p: Params, s: State, b: Block) returns (s': State)
    requires p.maxFuture >= 0 && Early(s, b.header.timestamp) && b.txs != []
    requires 0 < b.header.index < WINDOW && BlockStored(World(), Naming, b.hash, b)
    requires b.header.bits == s.bits && b.header.merkleRoot == "r" && b.header.previous in s.store.blocks
    requires b.hash !in s.store.blocks && s.tip.Some? && b.header.previous != s.tip.value
    ensures StoreFork(World(), p, s, b, b.header.timestamp) == Ok(s')
    ensures TurnedAway(World(), p, s, b, b.header.timestamp)
    ensures s' == s.(store := s.store.(blocks := s.store.blocks[b.hash := b], txs := PutTxs(s.store.txs, b.txs)))
    ensures Step(World(), Naming, p, s, StoringFork(b, b.header.timestamp), s')
  {
    Verdict(p, s, b, false);
    Verdict(p, s, b, true);
    s' := StoreFork(World(), p, s, b, b.header.timestamp).value;
  }

  lemma CommonIs(a: seq<Block>, b: seq<Block>, n: nat)
    requires n < |a| && n < |b| && a[..n] == b[..n] && a[n] != b[n]
    ensures CommonLength(a, b) == n
  {
    var k := CommonLength(a, b);
    PrefixElements(a, b, n);
    if k > n {
      PrefixElements(a, b, k);
    }
  }

  lemma PlanIs(p: Params, s: State, t: int, path: seq<Block>, side: seq<Block>, n: nat)
    requires Standing(s, t, path, side) && t <= 100 && |path| < |side| && |path| - n <= p.maxReorgDepth
    requires 0 < n < |path| && path[..n] == side[..n] && path[n] != side[n]
    ensures var h := Last(side).hash;
      && !Stale(s) && h in s.store.blocks && s.tip == Some(Last(path).hash) && s.tip.value in s.store.blocks
      && s.store.blocks[s.tip.value].header.index < s.store.blocks[h].header.index
      && PlanOf(p, s.store.blocks, s.tip.value, h) == Ok(Plan(Reversed(path[n..]), side[n..]))
  {
    CommonIs(path, side, n);
  }

  lemma MoveOn(p: Params, s: State, t: int, path: seq<Block>, side: seq<Block>, n: nat) returns (s': State)
    requires Standing(s, t, path, side) && t <= 100 && |path| < |side| && |path| - n <= p.maxReorgDepth
    requires 0 < n < |path| && path[..n] == side[..n] && path[n] != side[n]
    requires Stocked(s.store) && ChainOk(World(), side)
    ensures var h := Last(side).hash;
      && Reorganize(p, s, h) == Ok(Reorg(true, s'))
      && Step(World(), Naming, p, s, Reorganizing(h), s')
      && Standing(s', t, side, [])
      && s'.store.txs == s.store.txs - PathIds(path[n..])
  {
    var h := Last(side).hash;
    s' := Moves(p, s, t, path, side, n);
    ReorganizeKeeps(World(), Naming, p, s, h);
    MovedStands(s, s', t, side);
  }

  lemma Moves(p: Params, s: State, t: int, path: seq<Block>, side: seq<Block>, n: nat) returns (s': State)
    requires Standing(s, t, path, side) && t <= 100 && |path| < |side| && |path| - n <= p.maxReorgDepth
    requires 0 < n < |path| && path[..n] == side[..n] && path[n] != side[n] && Stocked(s.store)
    ensures !Stale(s) && Reorganize(p, s, Last(side).hash) == Ok(Reorg(true, s'))
    ensures s'.store.txs == s.store.txs - PathIds(path[n..])
    ensures s'.store.blocks.Keys <= s.store.blocks.Keys
    ensures forall h :: h in s'.store.blocks ==> s'.store.blocks[h] == s.store.blocks[h]
  {
    MoveAccepted(p, s, t, path, side, n);
    s' := Reorganize(p, s, Last(side).hash).value.state;
    MovedStores(p, s, Last(side).hash);
    CommonIs(path, side, n);
  }

  lemma MoveAccepted(p: Params, s: State, t: int, path: seq<Block>, side: seq<Block>, n: nat)
    requires Standing(s, t, path, side) && t <= 100 && |path| < |side| && |path| - n <= p.maxReorgDepth
    requires 0 < n < |path| && path[..n] == side[..n] && path[n] != side[n] && Stocked(s.store)
    ensures var h := Last(side).hash;
      && !Stale(s) && h in s.store.blocks
      && Reorganize(p, s, h)
         == Ok(Reorg(true, Moved(s, Plan(Reversed(path[n..]), side[n..]), h, s.store.blocks[h].header.bits)))
  {
    PlanIs(p, s, t, path, side, n);
    StockedCanUndo(World(), Naming, s, n);
    MoveFollows(p, s, Last(side).hash, Plan(Reversed(path[n..]), side[n..]));
  }

  lemma MoveFollows(p: Params, s: State, h: string, plan: Plan)
    requires Linked(s.store.blocks) && s.tip.Some? && s.tip.value in s.store.blocks && h in s.store.blocks
    requires s.store.blocks[s.tip.value].header.index < s.store.blocks[h].header.index
    requires PlanOf(p, s.store.blocks, s.tip.value, h) == Ok(plan)
    ensures Reorganize(p, s, h) == if CanUndo(s.store.txs, plan.rollback)
      then Ok(Reorg(true, Moved(s, plan, h, s.store.blocks[h].header.bits))) else Err(SpentTxMissing)
  {
  }

  lemma MovedStands(s: State, s': State, t: int, side: seq<Block>)
    requires Inv(World(), Naming, s') && Early(s, t) && |s.store.blocks| <= t && side != []
    requires Linked(s'.store.blocks) && s'.tip == Some(Last(side).hash) && Path(s') == side
    requires s'.store.blocks.Keys <= s.store.blocks.Keys
    requires forall h :: h in s'.store.blocks ==> s'.store.blocks[h] == s.store.blocks[h]
    ensures Standing(s', t, side, [])
  {
    ChainEntries(s'.store.blocks, s'.tip.value);
    FewerKeys(s'.store.blocks.Keys, s.store.blocks.Keys);
  }

  lemma {:induction false} FewerKeys(a: set<string>, b: set<string>)
    requires a <= b
    ensures |a| <= |b|
  {
    if a != {} {
      var x :| x in a;
      FewerKeys(a - {x}, b - {x});
    }
  }
}
