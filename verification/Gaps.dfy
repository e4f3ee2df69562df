/** What the node accepts although the reference rules forbid it: each gap by a block that insertion takes at the end of
    a run. */
module Gaps {
  import opened Domain
  import opened Bytes
  import opened Compact
  import opened Retarget
  import opened Rewards
  import opened Ledger
  import opened Supply
  import opened Storage
  import opened Chains
  import opened TxRules
  import opened Consensus
  import opened Rewind
  import opened Runs
  import opened History
  import opened RivalWorld
  import opened Rivals

  /** A block of the given height and contents on top of a path. */
  function Offered(path: seq<Block>, index: nat, t: int, txs: seq<Tx>): (b: Block)
    requires path != []
  {
    Block(Header(index, Last(path).hash, "r", t, 0, Last(path).header.bits), txs, HashOf(index, t))
  }

  lemma OfferTaken(p: Params, s: State, path: seq<Block>, index: nat, t: int, txs: seq<Tx>)
    requires p.maxFuture >= 0 && t > 0 && Standing(s, t, path, []) && 0 < index < WINDOW && txs != []
    requires CheckBlock(World(), s.store.utxos, Offered(path, index, t, txs)).Ok?
    ensures var b := Offered(path, index, t, txs);
      && b.hash !in s.store.blocks
      && Insert(World(), p, s, b, t) == Ok(InsertEffect(s, b, CheckBlock(World(), s.store.utxos, b).value))
      && (index == |path| ==> HeightFits(World(), b.header))
  {
    var b := Offered(path, index, t, txs);
    LastStored(s.store.blocks, path);
    if index == |path| {
      HeightShows(b.header, Last(path).header);
    }
    HashIsNew(s.store.blocks, t, index);
    Verdict(p, s, b, false);
  }

  /** The state after the genesis block. */
  lemma AfterGenesis(p: Params) returns (states: seq<State>, events: seq<Event>, root: seq<Block>, s: State)
    requires p.maxFuture >= 0
    ensures IsRun(World(), Naming, p, states, events) && s == states[|events|]
    ensures Standing(s, 1, root, []) && |root| == 1 && root[0].txs == [FUND] && s.store.utxos == Funded()
    ensures s.store.index == map[0 := GENESIS_HASH]
  {
    PowLimitDecodes();
    states, events, root := Opening(p, POW_LIMIT_BITS);
    s := states[|events|];
    Unspent(s, 1, root, []);
  }

  lemma PathIs(s: State, t: int, path: seq<Block>)
    requires Standing(s, t, path, [])
    ensures Inv(World(), Naming, s) && Linked(s.store.blocks) && Path(s) == path
  {
  }

  // ---- heights ----

  /** A block of any height from 2 to 23 on top of the genesis block is accepted, and the height index then has a
      gap. */
  lemma WrongHeightAccepted(p: Params, index: nat)
    returns (states: seq<State>, events: seq<Event>, b: Block)
    requires p.maxFuture >= 0 && 1 < index < WINDOW
    ensures IsRun(World(), Naming, p, states, events)
    ensures var s := states[|events|];
      var r := Insert(World(), p, s, b, 1);
      && Inv(World(), Naming, s) && b.hash !in s.store.blocks && b.header.index == index && r.Ok?
      && Linked(s.store.blocks) && |Path(s)| == 1 && b.header.previous == Path(s)[0].hash
      && r.value.store.index == map[0 := GENESIS_HASH, index := b.hash]
  {
    var root, s;
    states, events, root, s := AfterGenesis(p);
    b := Offered(root, index, 1, [Bare(HashOf(index, 1))]);
    HashUnused(Funded(), index, 1);
    BarePasses(Funded(), b);
    OfferTaken(p, s, root, index, 1, b.txs);
    PathIs(s, 1, root);
  }

  // ---- one output spent by two transactions ----

  lemma MadeCoins(c: Tx, amount: nat)
    requires c.outputs == [Output("m", amount)]
    ensures Coins(World(), c) == map[OutPoint(c.txid, 0) := Utxo("m", amount)] && OutSum(c.outputs) == amount
  {
    assert c.outputs[..0] == [];
    assert Points(c) == {OutPoint(c.txid, 0)};
  }

  lemma PassOfThree(u: UtxoSet, txs: seq<Tx>, start: Progress, middle: Progress, done: Progress)
    requires |txs| == 3 && txs[0].inputs == []
    requires start == Progress(u + Coins(World(), txs[0]), Coins(World(), txs[0]), 0)
    requires CheckTx(World(), u, start, txs[1]) == Ok(middle)
    requires CheckTx(World(), u, middle, txs[2]) == Ok(done)
    ensures CheckTxs(World(), u, txs) == Ok(done)
  {
    var one, two := txs[..1], txs[..2];
    assert two[..1] == one && CheckTxs(World(), u, one) == Ok(start);
    assert CheckTxs(World(), u, two) == Ok(middle);
  }

  /** Taking a committed coin whole, as the fee. */
  lemma WholeFee(u: UtxoSet, view: UtxoSet, made: UtxoSet, fees: nat, q: OutPoint, fee: nat, tx: Tx)
    requires q in u && q !in made && u[q] == Utxo("m", fee) && BASE_MIN_FEE <= fee && fees + fee < U256_BOUND
    requires tx == Pay(tx.txid, q, [])
    ensures CheckTx(World(), u, Progress(view, made, fees), tx) == Ok(Progress(view - {q}, made, fees + fee))
  {
    var from := Progress(view, made, fees);
    OneCoinPasses(u, from, tx, q, u[q], fee);
    assert Coins(World(), tx) == map[] && view - {q} + map[] == view - {q} && made - {q} + map[] == made;
  }

  lemma WithoutIt(q: OutPoint, coin: Utxo, made: UtxoSet)
    requires q !in made
    ensures map[q := coin] + made - {q} == made && made - {q} == made
  {
  }

  lemma TwoSpendsPass(u: UtxoSet, q: OutPoint, fee: nat, txs: seq<Tx>, made: UtxoSet)
    requires u == map[q := Utxo("m", fee)] && BASE_MIN_FEE <= fee && fee + fee < U256_BOUND
    requires |txs| == 3 && txs[0].inputs == [] && made == Coins(World(), txs[0]) && q !in made
    requires txs[1] == Pay(txs[1].txid, q, []) && txs[2] == Pay(txs[2].txid, q, [])
    ensures CheckTxs(World(), u, txs) == Ok(Progress(made, made, fee + fee))
  {
    var view := u + made;
    WithoutIt(q, Utxo("m", fee), made);
    WholeFee(u, view, made, 0, q, fee, txs[1]);
    WholeFee(u, made, made, fee, q, fee, txs[2]);
    PassOfThree(u, txs, Progress(view, made, 0), Progress(made, made, fee), Progress(made, made, fee + fee));
  }

  lemma DoubledPass(b: Block)
    requires b.header.index == 1 && b.txs == [GAIN, FIRST, SECOND]
    ensures CheckBlock(World(), Funded(), b) == Ok(map[OutPoint(GAIN_ID, 0) := Utxo("m", OutSum(GAIN.outputs))])
    ensures OutSum(GAIN.outputs) == INITIAL_REWARD + 4 * BASE_MIN_FEE
  {
    var q, made := OutPoint(FUND_ID, 0), Coins(World(), b.txs[0]);
    MadeCoins(GAIN, INITIAL_REWARD + 4 * BASE_MIN_FEE);
    TwoSpendsPass(Funded(), q, 2 * BASE_MIN_FEE, b.txs, made);
    RewardAt(b.header.index);
  }

  lemma DoubledShape(txs: seq<Tx>)
    requires txs == [GAIN, FIRST, SECOND]
    ensures Named(Naming, txs) && FreshTxids(Funded(), txs) && !SpentOnce(txs)
  {
    var q := OutPoint(FUND_ID, 0);
    assert txs[1].inputs[0].point == q && txs[2].inputs[0].point == q;
    assert q in Spent(txs[1]) && q in Spent(txs[2]);
  }

  lemma TotalOfOne(q: OutPoint, coin: Utxo)
    ensures Total(map[q := coin]) == coin.amount
  {
    TotalPut(map[], q, coin);
    assert map[][q := coin] == map[q := coin];
  }

  /** A block with two transactions that spend the same output is accepted; its coinbase takes both fees, and the value
      of all unspent outputs rises by more than the reward. */
  lemma DoubleSpendAccepted(p: Params)
    returns (states: seq<State>, events: seq<Event>, b: Block)
    requires p.maxFuture >= 0
    ensures IsRun(World(), Naming, p, states, events)
    ensures var s := states[|events|];
      var r := Insert(World(), p, s, b, 1);
      && b.hash !in s.store.blocks && WellNamed(World(), Naming, b) && FreshTxids(s.store.utxos, b.txs)
      && !SpentOnce(b.txs) && r.Ok?
      && Total(r.value.store.utxos) > Total(s.store.utxos) + BlockReward(b.header.index)
  {
    var root, s;
    states, events, root, s := AfterGenesis(p);
    b := Offered(root, 1, 1, [GAIN, FIRST, SECOND]);
    DoubledPass(b);
    DoubledShape(b.txs);
    OfferTaken(p, s, root, 1, 1, b.txs);
    TotalOfOne(OutPoint(GAIN_ID, 0), Utxo("m", OutSum(GAIN.outputs)));
    TotalOfOne(OutPoint(FUND_ID, 0), Utxo("m", 2 * BASE_MIN_FEE));
    RewardAt(1);
  }

  // ---- an output made and spent in one block ----

  lemma Handed(u: UtxoSet, q: OutPoint, tx: Tx, u': UtxoSet)
    requires u.Keys == {q} && u[q] == Utxo("m", 2 * BASE_MIN_FEE) && tx == Pay(tx.txid, q, tx.outputs)
    requires OutSum(tx.outputs) == BASE_MIN_FEE && u' == Coins(World(), tx)
    ensures CheckTx(World(), u, Progress(u, map[], 0), tx) == Ok(Progress(u', u', BASE_MIN_FEE))
  {
    OneCoinPasses(u, Progress(u, map[], 0), tx, q, u[q], BASE_MIN_FEE);
    assert u - {q} + u' == u' && map[] - {q} + u' == u';
  }

  lemma HandedOn(u: UtxoSet, q: OutPoint, tx: Tx, made: UtxoSet)
    requires made.Keys == {q} && made[q] == Utxo("m", BASE_MIN_FEE) && tx == Pay(tx.txid, q, [])
    ensures CheckTx(World(), u, Progress(made, made, BASE_MIN_FEE), tx)
      == Ok(Progress(made, map[], BASE_MIN_FEE + BASE_MIN_FEE))
  {
    OneCoinPasses(u, Progress(made, made, BASE_MIN_FEE), tx, q, made[q], BASE_MIN_FEE);
    assert Coins(World(), tx) == map[] && made + map[] == made && made - {q} + map[] == map[];
  }

  /** A payment, and a transaction that spends it. */
  function Chained(h: string): (txs: seq<Tx>) { [Bare(h), SHARED, LATER] }

  lemma ChainedPass(b: Block, txs: seq<Tx>)
    requires b.header.index == 1 && b.txs == txs == Chained(b.hash)
    ensures CheckBlock(World(), Funded(), b) == Ok(Paid())
  {
    var u, made := Funded(), Coins(World(), SHARED);
    MadeCoins(SHARED, BASE_MIN_FEE);
    Handed(u, OutPoint(FUND_ID, 0), SHARED, made);
    HandedOn(u, OutPoint(SHARED_ID, 0), LATER, made);
    assert Coins(World(), txs[0]) == map[] && u + map[] == u;
    PassOfThree(u, txs, Progress(u, map[], 0), Progress(made, made, BASE_MIN_FEE),
                Progress(made, map[], BASE_MIN_FEE + BASE_MIN_FEE));
    RewardAt(b.header.index);
    assert OutSum(b.txs[0].outputs) == 0;
  }

  lemma ChainedShape(txs: seq<Tx>, h: string, q: OutPoint)
    requires txs == Chained(h) && h !in {FUND_ID, SHARED_ID, LATER_ID} && q == OutPoint(SHARED_ID, 0)
    ensures Naming(h) == Bare(h) ==> Named(Naming, txs)
    ensures FreshTxids(Funded(), txs) && SpentOnce(txs) && |txs| == 3 && q in Points(txs[1]) && q in Spent(txs[2])
  {
    var x, y := txs[1], txs[2];
    assert |x.inputs| == 1 && x.inputs[0].point == OutPoint(FUND_ID, 0) && |y.inputs| == 1 && y.inputs[0].point == q;
    assert Spent(txs[0]) == {} && Spent(x) == {OutPoint(FUND_ID, 0)} && Spent(y) == {q};
  }

  /** A block in which one transaction spends an output of another is accepted, and the spent output stays in `u:`. */
  lemma ChainedSpendAccepted(p: Params)
    returns (states: seq<State>, events: seq<Event>, b: Block, q: OutPoint)
    requires p.maxFuture >= 0
    ensures IsRun(World(), Naming, p, states, events)
    ensures var s := states[|events|];
      var r := Insert(World(), p, s, b, 1);
      && b.hash !in s.store.blocks && WellNamed(World(), Naming, b) && FreshTxids(s.store.utxos, b.txs)
      && SpentOnce(b.txs) && r.Ok?
      && |b.txs| == 3 && q in Points(b.txs[1]) && q in Spent(b.txs[2]) && q in r.value.store.utxos
  {
    var root, s;
    states, events, root, s := AfterGenesis(p);
    b, q := Offered(root, 1, 1, Chained(HashOf(1, 1))), OutPoint(SHARED_ID, 0);
    HashUnused(Funded(), 1, 1);
    ChainedPass(b, b.txs);
    ChainedShape(b.txs, b.hash, q);
    MadeNamed(root, 1, []);
    OfferTaken(p, s, root, 1, 1, b.txs);
  }

  // ---- a coinbase that is there already ----

  lemma RepeatPasses(b: Block, txs: seq<Tx>)
    requires b.header.index == 1 && b.txs == txs == [FUND]
    ensures CheckBlock(World(), Funded(), b) == Ok(Funded())
    ensures Named(Naming, txs) && SpentOnce(txs) && !ChainedSpend(txs)
  {
    MadeCoins(FUND, 2 * BASE_MIN_FEE);
    assert Funded() + Funded() == Funded() && Spent(txs[0]) == {};
    RewardAt(b.header.index);
  }

  lemma RepeatUndone(stored: map<string, Tx>, txs: seq<Tx>)
    requires txs == [FUND]
    ensures UndoTxs(stored, Funded(), txs) == map[]
  {
    MadeCoins(FUND, 2 * BASE_MIN_FEE);
    assert txs[..0] == [] && Points(FUND) == Funded().Keys && Spent(FUND) == {};
    assert UndoTx(stored, Funded(), FUND) == map[];
  }

  lemma RepeatRollsBack(s: Store, b: Block)
    requires b.txs == [FUND] && s.utxos == Funded()
    ensures CanUndo(s.txs, [b]) && UndoBlocks(s.txs, s, [b]).utxos == map[]
  {
    UndoOne(s.txs, s, b);
    RepeatUndone(s.txs, b.txs);
  }

  /** A coinbase carries no height, so two blocks can have the same one: a block that repeats the genesis coinbase is
      accepted and leaves `u:` as it was, and rolling it back leaves `u:` empty. */
  lemma RepeatedCoinbaseAccepted(p: Params)
    returns (states: seq<State>, events: seq<Event>, b: Block)
    requires p.maxFuture >= 0
    ensures IsRun(World(), Naming, p, states, events)
    ensures var s := states[|events|];
      var r := Insert(World(), p, s, b, 1);
      && b.hash !in s.store.blocks && WellNamed(World(), Naming, b) && SpentOnce(b.txs) && !ChainedSpend(b.txs)
      && r.Ok?
      && s.store.utxos != map[] && r.value.store.utxos == s.store.utxos
      && CanUndo(r.value.store.txs, [b]) && UndoBlocks(r.value.store.txs, r.value.store, [b]).utxos == map[]
  {
    var root, s;
    states, events, root, s := AfterGenesis(p);
    b := Offered(root, 1, 1, root[0].txs);
    RepeatPasses(b, b.txs);
    OfferTaken(p, s, root, 1, 1, b.txs);
    RepeatRollsBack(InsertEffect(s, b, Funded()).store, b);
  }
}
