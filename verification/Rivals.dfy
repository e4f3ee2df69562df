/** One concrete run. Two rival blocks contain the same payment; the node moves from one branch to the other and thereby
    loses the payment's `t:` entry; a later block spends the payment; and from then on the node cannot leave that block,
    although a longer valid branch is stored. */
module Rivals {
  import opened Domain
  import opened Compact
  import opened Retarget
  import Merkle
  import opened Rewards
  import opened Ledger
  import opened Storage
  import opened Chains
  import opened TxRules
  import opened Consensus
  import opened Rewind
  import opened Runs
  import opened History
  import opened Undoing
  import opened Sources
  import opened RivalWorld

  // ---- the chains of the run ----

  const FRESH: State := State(EMPTY, None, POW_LIMIT_BITS)

  function Funded(): (u: UtxoSet) { map[OutPoint(FUND_ID, 0) := Utxo("m", 2 * BASE_MIN_FEE)] }

  function Paid(): (u: UtxoSet) { map[OutPoint(SHARED_ID, 0) := Utxo("m", BASE_MIN_FEE)] }

  lemma Sums()
    ensures OutSum(FUND.outputs) == 2 * BASE_MIN_FEE && OutSum(SHARED.outputs) == BASE_MIN_FEE
    ensures OutSum(LATER.outputs) == 0
  {
    assert FUND.outputs[..0] == [] && SHARED.outputs[..0] == [];
  }

  lemma GenesisEffect(bits: nat)
    ensures CheckBlock(World(), map[], Genesis(bits)) == Ok(Funded()) && Separate(map[], Genesis(bits))
  {
    Sums();
    RewardAt(0);
    assert Points(FUND) == {OutPoint(FUND_ID, 0)} && Spent(FUND) == {};
    assert Coins(World(), FUND) == Funded() && map[] + Funded() == Funded();
    assert Genesis(bits).txs[0] == FUND;
  }

  lemma GenesisHeader(p: Params, bits: nat)
    requires p.maxFuture >= 0 && InRange(bits)
    ensures CheckHeader(World(), p, FRESH, Genesis(bits), 0, false).Ok?
  {
    var leaves := seq(1, i requires 0 <= i < 1 => World().leafOf(FUND_ID));
    assert World().hexOf(Merkle.Root(World().pairHash, leaves)) == "r";
  }

  lemma BeginInserts(p: Params, bits: nat)
    requires p.maxFuture >= 0 && InRange(bits)
    ensures var s := InsertEffect(FRESH, Genesis(bits), Funded());
      && Insert(World(), p, FRESH, Genesis(bits), 0) == Ok(s)
      && Step(World(), Naming, p, FRESH, Inserting(Genesis(bits), 0), s)
    ensures WellNamed(World(), Naming, Genesis(bits)) && Separate(map[], Genesis(bits))
  {
    GenesisHeader(p, bits);
    GenesisEffect(bits);
    assert Genesis(bits).txs[0] == FUND && Naming(FUND_ID) == FUND;
  }

  lemma Begin(p: Params, bits: nat) returns (s: State)
    requires p.maxFuture >= 0 && InRange(bits)
    ensures Step(World(), Naming, p, FRESH, Inserting(Genesis(bits), 0), s)
    ensures Standing(s, 1, [Genesis(bits)], []) && Stocked(s.store) && s.store.index == map[0 := GENESIS_HASH]
    ensures s.store.blocks == map[GENESIS_HASH := Genesis(bits)]
  {
    s := InsertEffect(FRESH, Genesis(bits), Funded());
    BeginInserts(p, bits);
    FreshDatabase(World(), Naming, POW_LIMIT_BITS);
    InsertKeeps(World(), Naming, p, FRESH, Genesis(bits), 0);
    PutStocks(EMPTY, Genesis(bits), s.store);
    RootStands(s, Genesis(bits));
  }

  lemma RootStands(s: State, g: Block)
    requires BlocksStored(World(), Naming, s.store.blocks) && s.store.blocks == map[g.hash := g]
    requires g.header.index == 0 && g.header.timestamp == 0 && s.bits == g.header.bits && InRange(s.bits)
    ensures Linked(s.store.blocks) && Early(s, 1) && |s.store.blocks| <= 1 && Leads(s.store.blocks, [g])
  {
    StoredIsLinked(World(), Naming, s.store.blocks);
    assert s.store.blocks[g.hash] == g && Chain(s.store.blocks, g.hash) == [g];
  }

  /** A path of good blocks that leaves exactly these outputs unspent. */
  ghost predicate Leaves(path: seq<Block>, u: UtxoSet) {
    0 < |path| <= WINDOW && ChainOk(World(), path) && Fold(World(), path) == u
  }

  lemma HashUnused(u: UtxoSet, index: nat, t: int)
    requires index > 0 && (u == Funded() || u == Paid() || u == map[])
    ensures Unused(u, HashOf(index, t)) && HashOf(index, t) !in {FUND_ID, SHARED_ID, LATER_ID}
  {
  }

  /** What a made block needs to be inserted, and what the longer path leaves. */
  ghost predicate Fits(path: seq<Block>, u: UtxoSet, b: Block, u': UtxoSet) {
    CheckBlock(World(), u, b).Ok? && Separate(u, b) && ChainOk(World(), path + [b]) && Fold(World(), path + [b]) == u'
  }

  lemma BareFits(path: seq<Block>, u: UtxoSet, t: int)
    requires Leaves(path, u) && |path| < WINDOW && (u == Funded() || u == Paid() || u == map[])
    ensures Fits(path, u, Made(path, t, []), u)
  {
    var b := Made(path, t, []);
    HashUnused(u, |path|, t);
    assert b.txs == [Bare(b.hash)];
    BarePasses(u, b);
    ChainOkExtends(World(), path, b);
  }

  lemma SharedEffect()
    ensures Pays(Funded(), SHARED) && ApplyTx(World(), Funded(), SHARED) == Paid()
  {
    Sums();
    assert SHARED.inputs[0].point == OutPoint(FUND_ID, 0);
    assert Points(SHARED) == {OutPoint(SHARED_ID, 0)} && Spent(SHARED) == {OutPoint(FUND_ID, 0)};
  }

  lemma LaterEffect()
    ensures Pays(Paid(), LATER) && ApplyTx(World(), Paid(), LATER) == map[]
  {
    Sums();
    assert LATER.inputs[0].point == OutPoint(SHARED_ID, 0);
    assert Points(LATER) == {} && Spent(LATER) == {OutPoint(SHARED_ID, 0)};
  }

  lemma PayFits(path: seq<Block>, u: UtxoSet, t: int, tx: Tx)
    requires Leaves(path, u) && |path| < WINDOW && (u == Funded() || u == Paid()) && Pays(u, tx)
    requires tx.txid in {FUND_ID, SHARED_ID, LATER_ID}
    ensures Fits(path, u, Made(path, t, [tx]), ApplyTx(World(), u, tx))
  {
    var b := Made(path, t, [tx]);
    HashUnused(u, |path|, t);
    assert b.txs == [Bare(b.hash), tx];
    PayPasses(u, b, tx);
    ChainOkExtends(World(), path, b);
  }

  // ---- the run ----

  lemma Then(p: Params, states: seq<State>, events: seq<Event>, e: Event, s': State)
    requires IsRun(World(), Naming, p, states, events) && Step(World(), Naming, p, states[|events|], e, s')
    ensures IsRun(World(), Naming, p, states + [s'], events + [e])
  {
    var holds := (a: State, x: Event, b: State) => Step(World(), Naming, p, a, x, b);
    assert forall i :: 0 <= i < |events| ==> holds(states[i], events[i], states[i + 1]);
    OneMoreStep(holds, states, events, e, s');
  }

  lemma OneMoreStep(holds: (State, Event, State) -> bool, states: seq<State>, events: seq<Event>, e: Event, s': State)
    requires |states| == |events| + 1 && holds(states[|events|], e, s')
    requires forall i :: 0 <= i < |events| ==> holds(states[i], events[i], states[i + 1])
    ensures var more, es := states + [s'], events + [e];
      forall i :: 0 <= i < |es| ==> holds(more[i], es[i], more[i + 1])
  {
  }

  /** A run and where it stands. */
  ghost predicate Reaches(p: Params, states: seq<State>, events: seq<Event>, t: int, path: seq<Block>,
                          side: seq<Block>)
  {
    && IsRun(World(), Naming, p, states, events)
    && Standing(states[|events|], t, path, side)
  }

  lemma OneStep(p: Params, e: Event, s: State) returns (states: seq<State>, events: seq<Event>)
    requires Step(World(), Naming, p, FRESH, e, s)
    ensures IsRun(World(), Naming, p, states, events) && events == [e] && states[|events|] == s
  {
    Then(p, [FRESH], [], e, s);
    states, events := [FRESH] + [s], [] + [e];
  }

  lemma Opening(p: Params, bits: nat) returns (states: seq<State>, events: seq<Event>, root: seq<Block>)
    requires p.maxFuture >= 0 && InRange(bits)
    ensures Reaches(p, states, events, 1, root, []) && Leaves(root, Funded()) && root == [Genesis(bits)]
    ensures states[|events|].store.index == map[0 := GENESIS_HASH] && Stocked(states[|events|].store)
    ensures states[|events|].store.blocks == map[GENESIS_HASH := Genesis(bits)] && states[|events|].bits == bits
    ensures events == [Inserting(Genesis(bits), 0)]
  {
    var s := Begin(p, bits);
    root := [Genesis(bits)];
    states, events := OneStep(p, Inserting(Genesis(bits), 0), s);
    RootLeaves(s, root, bits);
  }

  lemma RootLeaves(s: State, root: seq<Block>, bits: nat)
    requires root == [Genesis(bits)] && Standing(s, 1, root, [])
    ensures Leaves(root, Funded()) && s.bits == bits
  {
    Unspent(s, 1, root, []);
    FoldOfOne(Genesis(bits), FUND);
    FundEffect();
  }

  lemma FoldOfOne(g: Block, tx: Tx)
    requires g.txs == [tx]
    ensures Fold(World(), [g]) == ApplyTx(World(), map[], tx)
  {
    assert [g][..0] == [] && [tx][..0] == [];
    assert ApplyTxs(World(), map[], [tx]) == ApplyTx(World(), ApplyTxs(World(), map[], []), tx);
  }

  lemma FundEffect()
    ensures ApplyTx(World(), map[], FUND) == Funded()
  {
    assert Points(FUND) == {OutPoint(FUND_ID, 0)} && Spent(FUND) == {};
  }

  /** One more inserted block. */
  lemma Insertion(p: Params, states: seq<State>, events: seq<Event>, t: int, path: seq<Block>, side: seq<Block>,
                  u: UtxoSet, pays: seq<Tx>, u': UtxoSet)
    returns (states': seq<State>, events': seq<Event>)
    requires p.maxFuture >= 0 && t > 0 && Reaches(p, states, events, t, path, side) && Leaves(path, u)
    requires Named(Naming, pays) && Fits(path, u, Made(path, t, pays), u') && |path| < WINDOW
    ensures var b := Made(path, t, pays);
      && Reaches(p, states', events', t + 1, path + [b], side) && Leaves(path + [b], u')
      && Insert(World(), p, states[|events|], b, t) == Ok(states'[|events'|]) && events' == events + [Inserting(b, t)]
      && states'[|events'|].store.blocks == states[|events|].store.blocks[b.hash := b]
      && states'[|events'|].store.txs == PutTxs(states[|events|].store.txs, b.txs)
      && (Stocked(states[|events|].store) ==> Stocked(states'[|events'|].store))
  {
    var s, b := states[|events|], Made(path, t, pays);
    Unspent(s, t, path, side);
    var s' := InsertOn(p, s, t, path, side, pays);
    Then(p, states, events, Inserting(b, t), s');
    states', events' := states + [s'], events + [Inserting(b, t)];
  }

  /** One more stored fork block. */
  lemma Forking(p: Params, states: seq<State>, events: seq<Event>, t: int, path: seq<Block>, side: seq<Block>,
                base: seq<Block>, pays: seq<Tx>)
    returns (states': seq<State>, events': seq<Event>)
    requires p.maxFuture >= 0 && t > 0 && Reaches(p, states, events, t, path, side)
    requires Leads(states[|events|].store.blocks, base) && base != path && |base| < WINDOW && Named(Naming, pays)
    ensures Reaches(p, states', events', t + 1, path, base + [Made(base, t, pays)])
    ensures states'[|events'|].store.txs == PutTxs(states[|events|].store.txs, Made(base, t, pays).txs)
    ensures Stocked(states[|events|].store) ==> Stocked(states'[|events'|].store)
  {
    var s, b := states[|events|], Made(base, t, pays);
    var s' := ForkOn(p, s, t, path, side, base, pays);
    Then(p, states, events, StoringFork(b, t), s');
    states', events' := states + [s'], events + [StoringFork(b, t)];
  }

  /** The two paths share their first n blocks and part there. */
  ghost predicate Part(a: seq<Block>, b: seq<Block>, n: nat) {
    0 < n < |a| && n < |b| && a[..n] == b[..n] && a[n] != b[n]
  }

  lemma LeadsPrefix(blocks: Blocks, chain: seq<Block>, n: nat)
    requires BlocksStored(World(), Naming, blocks) && Linked(blocks) && Leads(blocks, chain) && 0 < n <= |chain|
    ensures Leads(blocks, chain[..n])
  {
    var h := Last(chain).hash;
    ChainPrefix(blocks, h, n - 1);
    ChainEntries(blocks, h);
    RootedHeights(blocks, h);
  }

  lemma SharedOn(path: seq<Block>, t: int)
    requires Leaves(path, Funded()) && |path| < WINDOW
    ensures Fits(path, Funded(), Made(path, t, [SHARED]), Paid()) && Named(Naming, [SHARED])
  {
    SharedEffect();
    PayFits(path, Funded(), t, SHARED);
  }

  lemma LaterOn(path: seq<Block>, t: int)
    requires Leaves(path, Paid()) && |path| < WINDOW
    ensures Fits(path, Paid(), Made(path, t, [LATER]), map[]) && Named(Naming, [LATER])
  {
    LaterEffect();
    PayFits(path, Paid(), t, LATER);
  }

  lemma InTxs(b: Block, path: seq<Block>, t: int, tx: Tx)
    requires path != [] && b == Made(path, t, [tx])
    ensures tx.txid in TxIds(b.txs) && b.txs[1] == tx
  {
  }

  /** Genesis, one block on it, and a rival of that block with these payments. */
  lemma RivalMade(p: Params, pays: seq<Tx>)
    returns (states: seq<State>, events: seq<Event>, root: seq<Block>, path: seq<Block>, side: seq<Block>)
    requires p.maxFuture >= 0 && Named(Naming, pays)
    ensures Reaches(p, states, events, 3, path, side) && Stocked(states[|events|].store)
    ensures |root| == 1 && path == root + [Made(root, 1, [])] && side == root + [Made(root, 2, pays)]
    ensures Leaves(root, Funded()) && Leaves(path, Funded())
    ensures TxIds(pays) <= states[|events|].store.txs.Keys
  {
    PowLimitDecodes();
    states, events, root := Opening(p, POW_LIMIT_BITS);
    BareFits(root, Funded(), 1);
    states, events := Insertion(p, states, events, 1, root, [], Funded(), [], Funded());
    path, side := root + [Made(root, 1, [])], root + [Made(root, 2, pays)];
    assert path[..1] == root;
    LeadsPrefix(states[|events|].store.blocks, path, 1);
    PaysStored(states[|events|].store.txs, root, 2, pays);
    states, events := Forking(p, states, events, 2, path, [], root, pays);
  }

  lemma PaysStored(txs: map<string, Tx>, path: seq<Block>, t: int, pays: seq<Tx>)
    requires path != []
    ensures TxIds(pays) <= PutTxs(txs, Made(path, t, pays).txs).Keys
  {
    var b := Made(path, t, pays);
    PutTxsKeys(txs, b.txs);
    assert forall i :: 0 <= i < |pays| ==> b.txs[i + 1] == pays[i];
  }

  lemma Parts(root: seq<Block>, s: int, t: int, pays: seq<Tx>)
    requires |root| == 1 && s != t
    ensures Part(root + [Made(root, s, [])], root + [Made(root, t, pays)], 1)
  {
    var a, b := root + [Made(root, s, [])], root + [Made(root, t, pays)];
    assert a[..1] == root == b[..1] && a[1].header.timestamp == s && b[1].header.timestamp == t;
  }

  /** The rival has the payment. */
  lemma RivalStored(p: Params)
    returns (states: seq<State>, events: seq<Event>, path: seq<Block>, side: seq<Block>)
    requires p.maxFuture >= 0
    ensures Reaches(p, states, events, 3, path, side) && Stocked(states[|events|].store)
    ensures Part(path, side, 1) && |path| == |side| == 2 && Leaves(path, Funded()) && Leaves(side, Paid())
    ensures SHARED_ID in states[|events|].store.txs
  {
    var root;
    var pays := [SHARED];
    assert Named(Naming, pays) && SHARED_ID in TxIds(pays) by { assert pays[0] == SHARED; }
    states, events, root, path, side := RivalMade(p, pays);
    SharedOn(root, 2);
    Parts(root, 1, 2, pays);
  }

  lemma UndoOne(stored: map<string, Tx>, s: Store, b: Block)
    ensures UndoBlocks(stored, s, [b]) == UndoBlock(stored, s, b)
  {
    assert [b][..0] == [];
  }

  lemma LastAlone(path: seq<Block>, b: Block)
    ensures Reversed((path + [b])[|path|..]) == [b]
  {
    assert (path + [b])[|path|..] == [b];
  }

  lemma CanUndoLast(s: State, t: int, path: seq<Block>, side: seq<Block>, b: Block)
    requires Standing(s, t, path + [b], side) && Stocked(s.store)
    ensures CanUndo(s.store.txs, [b])
  {
    StockedCanUndo(World(), Naming, s, |path|);
    LastAlone(path, b);
  }

  /** Inserting a block with the payment and rolling it back removes the payment's entry, whether or not it was there
      before. */
  lemma UndoneWithPayment(p: Params, s: State, t: int, path: seq<Block>, side: seq<Block>)
    requires p.maxFuture >= 0 && t > 0 && Standing(s, t, path, side) && Stocked(s.store) && Leaves(path, Funded())
    requires |path| < WINDOW
    ensures var b := Made(path, t, [SHARED]);
      var r := Insert(World(), p, s, b, t);
      && b.hash !in s.store.blocks && r.Ok? && Step(World(), Naming, p, s, Inserting(b, t), r.value)
      && CanUndo(r.value.store.txs, [b])
      && SHARED_ID !in UndoBlocks(r.value.store.txs, r.value.store, [b]).txs
  {
    var b := Made(path, t, [SHARED]);
    SharedOn(path, t);
    Unspent(s, t, path, side);
    MadeIsNew(s.store.blocks, t, path, [SHARED]);
    var s' := InsertOn(p, s, t, path, side, [SHARED]);
    CanUndoLast(s', t + 1, path, side, b);
    UndoOne(s'.store.txs, s'.store, b);
    InTxs(b, path, t, SHARED);
  }

  /** Rolling back loses `t:` entries that were there before: in the last state of this run the payment is stored with
      a fork block; a block containing it is inserted and rolled back; and its entry is gone. */
  lemma RollbackLosesShared(p: Params)
    returns (states: seq<State>, events: seq<Event>, b: Block)
    requires p.maxFuture >= 0
    ensures CaseFolds(World()) && IsRun(World(), Naming, p, states, events)
    ensures var s := states[|events|];
      var r := Insert(World(), p, s, b, 3);
      && SHARED_ID in s.store.txs && b.hash !in s.store.blocks
      && r.Ok? && Step(World(), Naming, p, s, Inserting(b, 3), r.value)
      && CanUndo(r.value.store.txs, [b])
      && SHARED_ID !in UndoBlocks(r.value.store.txs, r.value.store, [b]).txs
  {
    var path, side;
    states, events, path, side := RivalStored(p);
    UndoneWithPayment(p, states[|events|], 3, path, side);
    b := Made(path, 3, [SHARED]);
  }

  lemma StillPart(a: seq<Block>, b: seq<Block>, n: nat, x: Block)
    requires Part(a, b, n)
    ensures Part(a + [x], b, n) && Part(a, b + [x], n)
  {
  }

  lemma OnTail(path: seq<Block>, n: nat, b: Block, id: string)
    requires n <= |path| && id in TxIds(b.txs)
    ensures id in PathIds((path + [b])[n..])
  {
    var tail := (path + [b])[n..];
    assert tail[|path| - n] == b;
    PathIdsIff(tail, id);
  }

  lemma PaymentAdded(p: Params, states: seq<State>, events: seq<Event>, t: int, path: seq<Block>, side: seq<Block>,
                     pays: seq<Tx>)
    returns (states': seq<State>, events': seq<Event>)
    requires p.maxFuture >= 0 && t > 0 && Reaches(p, states, events, t, path, side) && Leaves(path, Funded())
    requires |path| < WINDOW && Stocked(states[|events|].store) && Part(path, side, 1) && pays == [SHARED]
    ensures var b := Made(path, t, pays);
      && Reaches(p, states', events', t + 1, path + [b], side) && Stocked(states'[|events'|].store)
      && Part(path + [b], side, 1) && SHARED_ID in PathIds((path + [b])[1..])
  {
    var b := Made(path, t, pays);
    SharedOn(path, t);
    states', events' := Insertion(p, states, events, t, path, side, Funded(), pays, Paid());
    StillPart(path, side, 1, b);
    InTxs(b, path, t, SHARED);
    OnTail(path, 1, b, SHARED_ID);
  }

  /** The payment goes into the tip's branch too. */
  lemma PaymentOnBoth(p: Params)
    returns (states: seq<State>, events: seq<Event>, path: seq<Block>, side: seq<Block>)
    requires p.maxFuture >= 0
    ensures Reaches(p, states, events, 4, path, side) && Stocked(states[|events|].store)
    ensures Part(path, side, 1) && |path| == 3 && |side| == 2 && Leaves(side, Paid())
    ensures SHARED_ID in PathIds(path[1..])
  {
    var before;
    states, events, before, side := RivalStored(p);
    states, events := PaymentAdded(p, states, events, 3, before, side, [SHARED]);
    path := before + [Made(before, 3, [SHARED])];
  }

  /** One more block at the end of the other branch. */
  lemma SideExtends(p: Params, states: seq<State>, events: seq<Event>, t: int, path: seq<Block>, side: seq<Block>,
                    n: nat)
    returns (states': seq<State>, events': seq<Event>)
    requires p.maxFuture >= 0 && t > 0 && Reaches(p, states, events, t, path, side) && side != []
    requires Part(path, side, n) && |side| < WINDOW
    ensures var b := Made(side, t, []);
      && Reaches(p, states', events', t + 1, path, side + [b]) && Part(path, side + [b], n)
      && states'[|events'|].store.txs == PutTxs(states[|events|].store.txs, b.txs)
      && (Stocked(states[|events|].store) ==> Stocked(states'[|events'|].store))
  {
    states', events' := Forking(p, states, events, t, path, side, side, []);
    StillPart(path, side, n, Made(side, t, []));
  }

  lemma SideGrows(p: Params, states: seq<State>, events: seq<Event>, t: int, path: seq<Block>, side: seq<Block>, n: nat)
    returns (states': seq<State>, events': seq<Event>, side': seq<Block>)
    requires p.maxFuture >= 0 && t > 0 && Reaches(p, states, events, t, path, side) && side != []
    requires Part(path, side, n) && Leaves(side, Paid()) && |side| < WINDOW
    ensures Reaches(p, states', events', t + 1, path, side') && |side'| == |side| + 1
    ensures Part(path, side', n) && Leaves(side', Paid())
    ensures Stocked(states[|events|].store) ==> Stocked(states'[|events'|].store)
    ensures SHARED_ID !in states[|events|].store.txs ==> SHARED_ID !in states'[|events'|].store.txs
  {
    BareFits(side, Paid(), t);
    states', events' := SideExtends(p, states, events, t, path, side, n);
    side' := side + [Made(side, t, [])];
    if SHARED_ID !in states[|events|].store.txs {
      StaysGone(states[|events|].store.txs, side, t, []);
    }
  }

  lemma SideGrowsTwice(p: Params, states: seq<State>, events: seq<Event>, t: int, path: seq<Block>, side: seq<Block>,
                       n: nat)
    returns (states': seq<State>, events': seq<Event>, side': seq<Block>)
    requires p.maxFuture >= 0 && t > 0 && Reaches(p, states, events, t, path, side) && side != []
    requires Part(path, side, n) && Leaves(side, Paid()) && |side| + 1 < WINDOW
    ensures Reaches(p, states', events', t + 2, path, side') && |side'| == |side| + 2
    ensures Part(path, side', n) && Leaves(side', Paid())
    ensures Stocked(states[|events|].store) ==> Stocked(states'[|events'|].store)
  {
    var states1, events1, side1 := SideGrows(p, states, events, t, path, side, n);
    states', events', side' := SideGrows(p, states1, events1, t + 1, path, side1, n);
  }

  /** Two more blocks make the rival branch the longer one. */
  lemma RivalGrows(p: Params)
    returns (states: seq<State>, events: seq<Event>, path: seq<Block>, side: seq<Block>)
    requires p.maxFuture >= 0
    ensures Reaches(p, states, events, 6, path, side) && Stocked(states[|events|].store)
    ensures Part(path, side, 1) && |path| == 3 && |side| == 4 && Leaves(side, Paid())
    ensures SHARED_ID in PathIds(path[1..])
  {
    states, events, path, side := PaymentOnBoth(p);
    states, events, side := SideGrowsTwice(p, states, events, 4, path, side, 1);
  }

  /** The hypotheses about runs can be met, forks and reorganizations included: the last step of this run moves the tip
      to the rival branch. The move deletes the `t:` entry of the payment, which the new path contains and leaves
      unspent. */
  lemma RunThatMoves(p: Params)
    returns (states: seq<State>, events: seq<Event>, path: seq<Block>, h: string)
    requires p.maxFuture >= 0 && p.maxReorgDepth >= 2
    ensures CaseFolds(World()) && Reaches(p, states, events, 6, path, []) && |path| == 4 && Leaves(path, Paid())
    ensures |events| > 0 && events[|events| - 1] == Reorganizing(h) && Linked(states[|events| - 1].store.blocks)
    ensures Reorganize(p, states[|events| - 1], h) == Ok(Reorg(true, states[|events|]))
    ensures SHARED_ID !in states[|events|].store.txs && OutPoint(SHARED_ID, 0) in states[|events|].store.utxos
    ensures !Backed(states[|events|].store)
  {
    var before;
    states, events, before, path := RivalGrows(p);
    h := Last(path).hash;
    var s' := MoveOn(p, states[|events|], 6, before, path, 1);
    Then(p, states, events, Reorganizing(h), s');
    states, events := states + [s'], events + [Reorganizing(h)];
    Unspent(s', 6, path, []);
    assert OutPoint(SHARED_ID, 0) in Paid();
  }

  lemma StaysGone(txs: map<string, Tx>, path: seq<Block>, t: int, pays: seq<Tx>)
    requires path != [] && SHARED_ID !in txs && (pays == [] || pays == [LATER])
    ensures SHARED_ID !in PutTxs(txs, Made(path, t, pays).txs)
  {
    var b := Made(path, t, pays);
    PutTxsKeys(txs, b.txs);
    HashUnused(map[], |path|, t);
  }

  /** A later block spends the payment. */
  lemma PaymentTaken(p: Params, states: seq<State>, events: seq<Event>, t: int, base: seq<Block>, pays: seq<Tx>)
    returns (states': seq<State>, events': seq<Event>)
    requires p.maxFuture >= 0 && t > 0 && Reaches(p, states, events, t, base, []) && Leaves(base, Paid())
    requires |base| < WINDOW && pays == [LATER] && SHARED_ID !in states[|events|].store.txs
    ensures Reaches(p, states', events', t + 1, base + [Made(base, t, pays)], [])
    ensures SHARED_ID !in states'[|events'|].store.txs
  {
    LaterOn(base, t);
    StaysGone(states[|events|].store.txs, base, t, pays);
    states', events' := Insertion(p, states, events, t, base, [], Paid(), pays, map[]);
  }

  lemma PaymentSpent(p: Params)
    returns (states: seq<State>, events: seq<Event>, base: seq<Block>, b: Block)
    requires p.maxFuture >= 0 && p.maxReorgDepth >= 2
    ensures Reaches(p, states, events, 7, base + [b], []) && |base| == 4 && Leaves(base, Paid())
    ensures SHARED_ID !in states[|events|].store.txs
    ensures b == Made(base, 6, [LATER])
  {
    var h;
    states, events, base, h := RunThatMoves(p);
    b := Made(base, 6, [LATER]);
    states, events := PaymentTaken(p, states, events, 6, base, [LATER]);
  }

  /** A good block beside the last one. */
  lemma Beside(p: Params, states: seq<State>, events: seq<Event>, t: int, base: seq<Block>, b: Block)
    returns (states': seq<State>, events': seq<Event>, side: seq<Block>)
    requires p.maxFuture >= 0 && t > 0 && Reaches(p, states, events, t, base + [b], []) && Leaves(base, Paid())
    requires |base| < WINDOW && b.header.timestamp != t && SHARED_ID !in states[|events|].store.txs
    ensures Reaches(p, states', events', t + 1, base + [b], side) && |side| == |base| + 1
    ensures Part(base + [b], side, |base|) && Leaves(side, Paid()) && SHARED_ID !in states'[|events'|].store.txs
  {
    var path, c := base + [b], Made(base, t, []);
    side := base + [c];
    assert path[..|base|] == base == side[..|base|];
    BareFits(base, Paid(), t);
    LeadsPrefix(states[|events|].store.blocks, path, |base|);
    StaysGone(states[|events|].store.txs, base, t, []);
    states', events' := Forking(p, states, events, t, path, [], base, []);
  }

  lemma LongerBeside(p: Params, states: seq<State>, events: seq<Event>, t: int, base: seq<Block>, b: Block)
    returns (states': seq<State>, events': seq<Event>, side: seq<Block>)
    requires p.maxFuture >= 0 && t > 0 && Reaches(p, states, events, t, base + [b], []) && Leaves(base, Paid())
    requires |base| + 1 < WINDOW && b.header.timestamp != t && SHARED_ID !in states[|events|].store.txs
    ensures Reaches(p, states', events', t + 2, base + [b], side) && |side| == |base| + 2
    ensures Part(base + [b], side, |base|) && Leaves(side, Paid()) && SHARED_ID !in states'[|events'|].store.txs
  {
    var states1, events1, side1 := Beside(p, states, events, t, base, b);
    states', events', side := SideGrows(p, states1, events1, t + 1, base + [b], side1, |base|);
  }

  /** And a longer branch appears beside it. */
  lemma LongerBranch(p: Params)
    returns (states: seq<State>, events: seq<Event>, path: seq<Block>, side: seq<Block>)
    requires p.maxFuture >= 0 && p.maxReorgDepth >= 2
    ensures Reaches(p, states, events, 9, path, side) && Part(path, side, 4) && |path| == 5 && |side| == 6
    ensures Leaves(side, Paid()) && SHARED_ID !in states[|events|].store.txs
    ensures |path[4].txs| == 2 && path[4].txs[1] == LATER
  {
    var base, b;
    states, events, base, b := PaymentSpent(p);
    InTxs(b, base, 6, LATER);
    states, events, side := LongerBeside(p, states, events, 7, base, b);
    path := base + [b];
  }

  lemma CannotUndo(stored: map<string, Tx>, path: seq<Block>)
    requires |path| == 5 && |path[4].txs| == 2 && path[4].txs[1] == LATER && SHARED_ID !in stored
    ensures !CanUndo(stored, Reversed(path[4..]))
  {
    assert Reversed(path[4..])[0] == path[4];
    assert LATER.inputs[0].point.txid == SHARED_ID && !SourcesStored(stored, LATER);
  }

  /** A run after which the node is stuck: a longer branch of good blocks is stored, only one block would have to go,
      and the reorganization fails because a transaction that block spends is no longer found. */
  lemma SharedPaymentStrands(p: Params)
    returns (states: seq<State>, events: seq<Event>, h: string)
    requires p.maxFuture >= 0 && p.maxReorgDepth >= 2
    ensures CaseFolds(World()) && IsRun(World(), Naming, p, states, events)
    ensures var s := states[|events|];
      && Linked(s.store.blocks) && !Stale(s) && Rooted(s.store.blocks, h)
      && ChainOk(World(), Chain(s.store.blocks, h)) && |Path(s)| < |Chain(s.store.blocks, h)|
      && s.tip.Some? && |Gone(s.store.blocks, s.tip.value, h)| == 1
      && Reorganize(p, s, h) == Err(SpentTxMissing)
  {
    var path, side;
    states, events, path, side := LongerBranch(p);
    h := Last(side).hash;
    var s := states[|events|];
    PlanIs(p, s, 9, path, side, 4);
    CannotUndo(s.store.txs, path);
    MoveFollows(p, s, h, Plan(Reversed(path[4..]), side[4..]));
    CommonIs(path, side, 4);
  }
}
