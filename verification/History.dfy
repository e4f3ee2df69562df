/** Whole runs of the node: what holds in every state it can reach. */
module History {
  import opened Domain
  import opened Compact
  import opened Retarget
  import opened Rewards
  import opened Ledger
  import opened Supply
  import opened Storage
  import opened Chains
  import opened TxRules
  import opened Acceptance
  import opened Consensus
  import opened Runs

  datatype Event =
    | Inserting(block: Block, now: int)
    | StoringFork(block: Block, now: int)
    | Reorganizing(hash: string)

  /** One operation, accepted or refused, under the assumptions the code does not check: submitted blocks
      are well named and separate, the new branch is transaction-valid on its own, the tip is not stale. */
  ghost predicate Step(env: Env, naming: string -> Tx, p: Params, s: State, e: Event, s': State) {
    match e
    case Inserting(b, now) =>
      var r := Insert(env, p, s, b, now);
      if r.Err? then s' == s
      else s' == r.value && (b.hash !in s.store.blocks ==> WellNamed(env, naming, b) && Separate(s.store.utxos, b))
    case StoringFork(b, now) =>
      var r := StoreFork(env, p, s, b, now);
      TurnedAway(env, p, s, b, now)
      && (if r.Err? then s' == s else s' == r.value && WellNamed(env, naming, b))
    case Reorganizing(h) =>
      Linked(s.store.blocks) && !Stale(s)
      && var r := Reorganize(p, s, h);
         if r.Err? then s' == s
         else s' == r.value.state
              && (h in s.store.blocks && Rooted(s.store.blocks, h) ==> ChainOk(env, Chain(s.store.blocks, h)))
  }

  /** A run from a fresh database: states[i + 1] follows from states[i] by events[i]. */
  ghost predicate IsRun(env: Env, naming: string -> Tx, p: Params, states: seq<State>, events: seq<Event>) {
    && |states| == |events| + 1
    && states[0] == State(EMPTY, None, POW_LIMIT_BITS)
    && forall i :: 0 <= i < |events| ==> Step(env, naming, p, states[i], events[i], states[i + 1])
  }

  lemma StepKeeps(env: Env, naming: string -> Tx, p: Params, s: State, e: Event, s': State)
    requires CaseFolds(env) && Inv(env, naming, s) && Step(env, naming, p, s, e, s')
    ensures Inv(env, naming, s')
  {
    match e
    case Inserting(b, now) =>
      if Insert(env, p, s, b, now).Ok? {
        InsertKeeps(env, naming, p, s, b, now);
      }
    case StoringFork(b, now) =>
      if StoreFork(env, p, s, b, now).Ok? {
        StoreForkKeeps(env, naming, p, s, b, now);
      }
    case Reorganizing(h) =>
      if Reorganize(p, s, h).Ok? {
        ReorganizeKeeps(env, naming, p, s, h);
      }
  }

  lemma {:induction false} RunKeeps(env: Env, naming: string -> Tx, p: Params, states: seq<State>, events: seq<Event>,
                                    i: nat)
    requires CaseFolds(env) && IsRun(env, naming, p, states, events) && i < |states|
    ensures Inv(env, naming, states[i])
  {
    if i == 0 {
      FreshDatabase(env, naming, POW_LIMIT_BITS);
    } else {
      RunKeeps(env, naming, p, states, events, i - 1);
      StepKeeps(env, naming, p, states[i - 1], events[i - 1], states[i]);
    }
  }

  /** In every state of every run the UTXO key space is the fold of the blocks on the tip's path, case aside,
      and the height index names exactly the path; the difficulty is the tip's. */
  lemma StateIsFoldOfPath(env: Env, naming: string -> Tx, p: Params, states: seq<State>, events: seq<Event>, i: nat)
    requires CaseFolds(env) && IsRun(env, naming, p, states, events) && i < |states|
    ensures var s := states[i];
      && Linked(s.store.blocks)
      && Canon(env, s.store.utxos) == Fold(env, Path(s))
      && (forall n: nat :: n in s.store.index <==> n < |Path(s)|)
      && (forall n: nat :: n in s.store.index ==> s.store.index[n] == Path(s)[n].hash && Path(s)[n].header.index == n)
      && (s.tip.Some? ==> s.tip.value in s.store.blocks && s.bits == s.store.blocks[s.tip.value].header.bits)
  {
    RunKeeps(env, naming, p, states, events, i);
    var s := states[i];
    StoredIsLinked(env, naming, s.store.blocks);
    if s.tip.Some? {
      RootedHeights(s.store.blocks, s.tip.value);
      ChainEntries(s.store.blocks, s.tip.value);
    }
  }

  /** An accepted new block, separate from what is unspent, changes the unspent total by exactly its coinbase output
      less the fees the code adds up, so by at most the reward. */
  lemma InsertConserves(env: Env, p: Params, s: State, b: Block, now: int)
    requires Insert(env, p, s, b, now).Ok? && b.hash !in s.store.blocks && Separate(s.store.utxos, b)
    ensures var before, after := s.store.utxos, Insert(env, p, s, b, now).value.store.utxos;
      && |b.txs| > 0 && CheckTxs(env, before, b.txs).Ok?
      && Total(after) + CheckTxs(env, before, b.txs).value.fees == Total(before) + OutSum(b.txs[0].outputs)
      && Total(after) <= Total(before) + BlockReward(b.header.index)
  {
    PassConserves(env, s.store.utxos, b);
  }

  lemma PassConserves(env: Env, u: UtxoSet, b: Block)
    requires CheckBlock(env, u, b).Ok? && Separate(u, b)
    ensures |b.txs| > 0 && CheckTxs(env, u, b.txs).Ok?
    ensures Total(CheckBlock(env, u, b).value) + CheckTxs(env, u, b.txs).value.fees
      == Total(u) + OutSum(b.txs[0].outputs)
    ensures Total(CheckBlock(env, u, b).value) <= Total(u) + BlockReward(b.header.index)
  {
    CheckBlockParts(env, u, b);
    AcceptedIsGoodIff(env, u, b);
    InsertMatchesLedgerIff(env, u, b);
    ValidInTurn(env, u, b.txs);
    InTurnIsOk(env, u, b.txs);
    BlockConserves(env, u, b);
  }

  /** In every state of every run the unspent total is at most the rewards of the heights on the path, below the 32-bit
      era limit less than 3 360 000 coins, and within that supply as long as the rewards
      are. */
  lemma SupplyBounded(env: Env, naming: string -> Tx, p: Params, states: seq<State>, events: seq<Event>, i: nat)
    requires CaseFolds(env) && IsRun(env, naming, p, states, events) && i < |states|
    ensures var s := states[i];
      && Linked(s.store.blocks)
      && Total(s.store.utxos) <= Issued(|Path(s)|)
      && (|Path(s)| <= HALVING_INTERVAL * U32_BOUND ==> Total(s.store.utxos) < 3_360_000 * RAM_PER_ASRM < MAX_SUPPLY)
      && (|Path(s)| <= CAPPED_HEIGHTS ==> Total(s.store.utxos) <= MAX_SUPPLY)
  {
    RunKeeps(env, naming, p, states, events, i);
    var s := states[i];
    StoredIsLinked(env, naming, s.store.blocks);
    if s.tip.Some? {
      RootedHeights(s.store.blocks, s.tip.value);
    }
    ChainWithinIssued(env, Path(s));
    TotalOfCanon(env, s.store.utxos);
    if |Path(s)| <= HALVING_INTERVAL * U32_BOUND {
      IssuedBounded(|Path(s)|);
    }
    SupplyCapIff(|Path(s)|);
  }

  // ---- restarting ----

  lemma {:induction false} TiplessIsFresh(env: Env, naming: string -> Tx, p: Params, states: seq<State>,
                                          events: seq<Event>, i: nat)
    requires IsRun(env, naming, p, states, events) && i < |states| && states[i].tip.None?
    ensures states[i] == State(EMPTY, None, POW_LIMIT_BITS)
  {
    if i > 0 {
      assert Step(env, naming, p, states[i - 1], events[i - 1], states[i]);
      assert states[i] == states[i - 1];
      TiplessIsFresh(env, naming, p, states, events, i - 1);
    }
  }

  /** A node that is stopped in any state of any run and opened again is in that state again: the in-memory tip and
      difficulty are always what the database says. */
  lemma RestartRestores(env: Env, naming: string -> Tx, p: Params, states: seq<State>, events: seq<Event>, i: nat)
    requires CaseFolds(env) && IsRun(env, naming, p, states, events) && i < |states|
    ensures Opened(states[i].store) == states[i]
  {
    StateIsFoldOfPath(env, naming, p, states, events, i);
    RunKeeps(env, naming, p, states, events, i);
    if states[i].tip.None? {
      TiplessIsFresh(env, naming, p, states, events, i);
    }
  }

  // ---- the path only grows ----

  lemma PathLengths(env: Env, naming: string -> Tx, s: State)
    requires Inv(env, naming, s)
    ensures Linked(s.store.blocks)
    ensures s.tip.Some? ==> |Path(s)| == s.store.blocks[s.tip.value].header.index + 1
  {
    StoredIsLinked(env, naming, s.store.blocks);
  }

  /** The two lists of a plan are the branches above the last shared block: the shared part of the paths
      followed by either list is that branch's whole path. */
  lemma PlanJoinsPaths(p: Params, blocks: Blocks, tip: string, h: string)
    requires Linked(blocks) && PlanOf(p, blocks, tip, h).Ok?
    ensures var main, fork := Chain(blocks, tip), Chain(blocks, h);
      var plan, shared := PlanOf(p, blocks, tip, h).value, main[..CommonLength(main, fork)];
      && main == shared + Reversed(plan.rollback) && fork == shared + plan.apply
      && shared != [] && |plan.rollback| <= p.maxReorgDepth
  {
    var main, fork := Chain(blocks, tip), Chain(blocks, h);
    JoinAt(main, fork, CommonLength(main, fork));
  }

  lemma JoinAt(a: seq<Block>, b: seq<Block>, n: nat)
    requires n <= |a| && n <= |b| && a[..n] == b[..n]
    ensures a == a[..n] + Reversed(Reversed(a[n..])) && b == a[..n] + b[n..]
  {
    assert Reversed(Reversed(a[n..])) == a[n..];
  }

  lemma ReorganizationCases(p: Params, s: State, h: string)
    requires Linked(s.store.blocks) && Reorganize(p, s, h).Ok? && Reorganize(p, s, h).value.moved
    ensures s.tip.Some? && s.tip.value in s.store.blocks && h in s.store.blocks
    ensures s.store.blocks[s.tip.value].header.index < s.store.blocks[h].header.index
    ensures PlanOf(p, s.store.blocks, s.tip.value, h).Ok?
    ensures Reorganize(p, s, h).value.state
      == Moved(s, PlanOf(p, s.store.blocks, s.tip.value, h).value, h, s.store.blocks[h].header.bits)
  {
  }

  lemma MovedPathIsLonger(env: Env, naming: string -> Tx, p: Params, s: State, h: string)
    requires Inv(env, naming, s) && Linked(s.store.blocks) && Reorganize(p, s, h).Ok? && Reorganize(p, s, h).value.moved
    ensures |Path(s)| < |Chain(s.store.blocks, h)|
  {
    ReorganizationCases(p, s, h);
    PathLengths(env, naming, s);
    SharedRoot(s.store.blocks, s.tip.value, h);
  }

  lemma MoveEnds(p: Params, s: State, h: string)
    requires Linked(s.store.blocks) && Reorganize(p, s, h).Ok? && Reorganize(p, s, h).value.moved
    ensures var s', path := Reorganize(p, s, h).value.state, Chain(s.store.blocks, h);
      && s'.tip == s'.store.tip == Some(h) && path != []
      && path[|path| - 1].hash == h && path[|path| - 1].header.bits == s'.bits
  {
    ReorganizationCases(p, s, h);
    ChainEntries(s.store.blocks, h);
  }

  /** A reorganization that answers true lands on the new block's whole path, which is strictly longer than the old
      one, points both tips at its end and takes that block's difficulty; one that answers false changes nothing. */
  lemma ReorganizationRaisesTip(env: Env, naming: string -> Tx, p: Params, s: State, h: string)
    requires Inv(env, naming, s) && Linked(s.store.blocks) && Reorganize(p, s, h).Ok?
    requires h in s.store.blocks && Rooted(s.store.blocks, h) ==> ChainOk(env, Chain(s.store.blocks, h))
    ensures var r := Reorganize(p, s, h).value;
      if !r.moved then r.state == s
      else
        && Linked(r.state.store.blocks) && Path(r.state) == Chain(s.store.blocks, h)
        && |Path(s)| < |Path(r.state)|
        && Path(r.state)[|Path(r.state)| - 1].hash == h
        && r.state.tip == r.state.store.tip == Some(h)
        && r.state.bits == Path(r.state)[|Path(r.state)| - 1].header.bits
  {
    ReorganizeKeeps(env, naming, p, s, h);
    if Reorganize(p, s, h).value.moved {
      MoveEnds(p, s, h);
      MovedPathIsLonger(env, naming, p, s, h);
    }
  }

  lemma InsertedPathIsLonger(env: Env, naming: string -> Tx, p: Params, s: State, b: Block, now: int)
    requires CaseFolds(env) && Inv(env, naming, s) && Insert(env, p, s, b, now).Ok? && b.hash !in s.store.blocks
    requires WellNamed(env, naming, b) && Separate(s.store.utxos, b)
    ensures var s' := Insert(env, p, s, b, now).value;
      Linked(s.store.blocks) && Linked(s'.store.blocks) && |Path(s')| == |Path(s)| + 1
  {
    InsertKeeps(env, naming, p, s, b, now);
    PathLengths(env, naming, Insert(env, p, s, b, now).value);
    PassedHeaderExtends(env, naming, p, s, b, now);
  }

  /** No operation ever lowers the tip. */
  lemma StepNeverLowersTip(env: Env, naming: string -> Tx, p: Params, s: State, e: Event, s': State)
    requires CaseFolds(env) && Inv(env, naming, s) && Step(env, naming, p, s, e, s')
    ensures Linked(s.store.blocks) && Linked(s'.store.blocks) && |Path(s)| <= |Path(s')|
  {
    StoredIsLinked(env, naming, s.store.blocks);
    match e
    case Inserting(b, now) =>
      if Insert(env, p, s, b, now).Ok? && b.hash !in s.store.blocks {
        InsertedPathIsLonger(env, naming, p, s, b, now);
      }
    case StoringFork(b, now) =>
      if StoreFork(env, p, s, b, now).Ok? {
        StoreForkKeeps(env, naming, p, s, b, now);
      }
    case Reorganizing(h) =>
      if Reorganize(p, s, h).Ok? {
        ReorganizeKeeps(env, naming, p, s, h);
        if Reorganize(p, s, h).value.moved {
          MovedPathIsLonger(env, naming, p, s, h);
        }
      }
  }

  // ---- targets stay in range ----

  ghost predicate TargetsInRange(s: State) {
    InRange(s.bits) && forall h :: h in s.store.blocks ==> InRange(s.store.blocks[h].header.bits)
  }

  lemma {:induction false} WindowInRange(s: State, index: nat, n: nat)
    requires TargetsInRange(s) && n <= index && WindowBelow(s.store, index, n).Some?
    ensures forall i :: 0 <= i < n ==> InRange(WindowBelow(s.store, index, n).value[i].bits)
  {
    if n > 0 {
      WindowInRange(s, index, n - 1);
    }
  }

  /** The bits the node expects next are in range when everything it has stored is. */
  lemma ExpectedInRange(p: Params, s: State, index: nat)
    requires TargetsInRange(s)
    ensures InRange(ExpectedBits(p, s, index))
  {
    if index >= WINDOW && WindowBelow(s.store, index, WINDOW).Some? {
      WindowInRange(s, index, WINDOW);
      RetargetStaysInRange(WindowBelow(s.store, index, WINDOW).value, p.interval);
    }
  }

  ghost predicate GenesisInRange(e: Event) {
    !e.Reorganizing? && e.block.header.index == 0 ==> InRange(e.block.header.bits)
  }

  lemma StepKeepsTargets(env: Env, naming: string -> Tx, p: Params, s: State, e: Event, s': State)
    requires TargetsInRange(s) && Step(env, naming, p, s, e, s') && GenesisInRange(e)
    ensures TargetsInRange(s')
  {
    match e
    case Inserting(b, now) => ExpectedInRange(p, s, b.header.index);
    case StoringFork(b, now) => ExpectedInRange(p, s, b.header.index);
    case Reorganizing(h) =>
      if Reorganize(p, s, h).Ok? && Reorganize(p, s, h).value.moved {
        var plan := PlanOf(p, s.store.blocks, s.tip.value, h).value;
        UndoRemoves(s.store.txs, s.store, plan.rollback);
        ReplayKeepsRest(UndoBlocks(s.store.txs, s.store, plan.rollback), plan.apply);
      }
  }

  /** Along every run whose height-0 blocks are in range, every stored target, and every target the node will
      ever ask for, is non-zero and at most the proof-of-work limit. */
  lemma {:induction false} RunKeepsTargets(env: Env, naming: string -> Tx, p: Params, states: seq<State>,
                                           events: seq<Event>, i: nat)
    requires IsRun(env, naming, p, states, events) && i < |states|
    requires forall k :: 0 <= k < |events| ==> GenesisInRange(events[k])
    ensures TargetsInRange(states[i])
    ensures forall index: nat :: InRange(ExpectedBits(p, states[i], index))
  {
    if i == 0 {
      PowLimitDecodes();
    } else {
      RunKeepsTargets(env, naming, p, states, events, i - 1);
      StepKeepsTargets(env, naming, p, states[i - 1], events[i - 1], states[i]);
    }
    forall index: nat
      ensures InRange(ExpectedBits(p, states[i], index))
    {
      ExpectedInRange(p, states[i], index);
    }
  }

  // ---- the progression check over runs ----

  lemma {:induction false} WindowStarts(s: Store, index: nat, n: nat)
    requires 0 < n <= index && WindowBelow(s, index, n).Some?
    ensures index - 1 in s.index && s.index[index - 1] in s.blocks
    ensures WindowBelow(s, index, n).value[0] == s.blocks[s.index[index - 1]].header
  {
    if n > 1 {
      WindowStarts(s, index, n - 1);
    }
  }

  /** The bits asked of the block after the tip pass the progression check against the tip's own, six small targets
      excepted. */
  lemma ExpectedProgresses(env: Env, naming: string -> Tx, p: Params, s: State)
    requires Inv(env, naming, s) && TargetsInRange(s) && Linked(s.store.blocks) && s.tip.Some?
    requires Decode(s.bits) !in SIX
    ensures ProgressionOk(Decode(s.bits), Decode(ExpectedBits(p, s, |Path(s)|)))
  {
    if |Path(s)| >= WINDOW && WindowBelow(s.store, |Path(s)|, WINDOW).Some? {
      WindowAtTip(env, naming, s, WINDOW);
      WindowProgresses(WindowBelow(s.store, |Path(s)|, WINDOW).value, p.interval);
    }
  }

  /** The newest header below the next height is the tip's. */
  lemma WindowAtTip(env: Env, naming: string -> Tx, s: State, n: nat)
    requires Inv(env, naming, s) && Linked(s.store.blocks) && s.tip.Some?
    requires 0 < n <= |Path(s)| && WindowBelow(s.store, |Path(s)|, n).Some?
    ensures WindowBelow(s.store, |Path(s)|, n).value[0].bits == s.bits
  {
    WindowStarts(s.store, |Path(s)|, n);
    ChainEntries(s.store.blocks, s.tip.value);
  }

  /** In every state of every run with height-0 blocks in range, a block whose height fits is refused for jumping in
      difficulty only when its parent's target is one of six small values. */
  lemma TargetJumpOnlyAtSix(env: Env, naming: string -> Tx, p: Params, states: seq<State>, events: seq<Event>, i: nat,
                            b: Block, now: int)
    requires CaseFolds(env) && IsRun(env, naming, p, states, events) && i < |states|
    requires forall k :: 0 <= k < |events| ==> GenesisInRange(events[k])
    requires HeightFits(env, b.header) && Insert(env, p, states[i], b, now) == Err(TargetJump)
    ensures b.header.previous in states[i].store.blocks
    ensures Decode(states[i].store.blocks[b.header.previous].header.bits) in SIX
  {
    var s := states[i];
    RunKeeps(env, naming, p, states, events, i);
    RunKeepsTargets(env, naming, p, states, events, i);
    StoredIsLinked(env, naming, s.store.blocks);
    JumpExtendsTip(env, naming, p, s, b, now);
    JumpParts(env, p, s, b, now);
    if Decode(s.bits) !in SIX {
      ExpectedProgresses(env, naming, p, s);
    }
  }

  lemma {:induction false} NoJumpInInputs(env: Env, u: UtxoSet, from: Progress, inputs: seq<Input>)
    ensures TakeInputs(env, u, from, inputs) != Err(TargetJump)
  {
    if inputs != [] {
      NoJumpInInputs(env, u, from, inputs[..|inputs| - 1]);
    }
  }

  lemma {:induction false} NoJumpInPass(env: Env, u: UtxoSet, txs: seq<Tx>)
    requires |txs| > 0
    ensures CheckTxs(env, u, txs) != Err(TargetJump)
  {
    if |txs| > 1 {
      NoJumpInPass(env, u, txs[..|txs| - 1]);
      if CheckTxs(env, u, txs[..|txs| - 1]).Ok? {
        NoJumpInInputs(env, u, CheckTxs(env, u, txs[..|txs| - 1]).value, txs[|txs| - 1].inputs);
      }
    }
  }

  /** A block refused for jumping in difficulty had passed every check before that one. */
  lemma JumpParts(env: Env, p: Params, s: State, b: Block, now: int)
    requires Insert(env, p, s, b, now) == Err(TargetJump)
    ensures b.header.index > 0 && b.header.previous in s.store.blocks
    ensures s.tip.Some? ==> b.header.previous == s.tip.value
    ensures b.header.bits == ExpectedBits(p, s, b.header.index)
    ensures !ProgressionOk(Decode(s.store.blocks[b.header.previous].header.bits), Decode(b.header.bits))
  {
    if b.txs != [] {
      NoJumpInPass(env, s.store.utxos, b.txs);
    }
  }

  lemma JumpExtendsTip(env: Env, naming: string -> Tx, p: Params, s: State, b: Block, now: int)
    requires Inv(env, naming, s) && HeightFits(env, b.header) && Insert(env, p, s, b, now) == Err(TargetJump)
    ensures Linked(s.store.blocks) && s.tip == Some(b.header.previous) && b.header.previous in s.store.blocks
    ensures b.header.index == |Path(s)| && s.bits == s.store.blocks[b.header.previous].header.bits
  {
    JumpParts(env, p, s, b, now);
    PathLengths(env, naming, s);
    TipBlock(env, naming, s);
  }

  lemma TipBlock(env: Env, naming: string -> Tx, s: State)
    requires Inv(env, naming, s) && Linked(s.store.blocks) && s.store.blocks != map[]
    ensures s.tip.Some? && s.tip.value in s.store.blocks
    ensures env.headerHash(s.store.blocks[s.tip.value].header) == s.tip.value
    ensures s.bits == s.store.blocks[s.tip.value].header.bits
  {
    assert s.tip.Some?;
    ChainEntries(s.store.blocks, s.tip.value);
    assert BlockStored(env, naming, s.tip.value, s.store.blocks[s.tip.value]);
  }
}
