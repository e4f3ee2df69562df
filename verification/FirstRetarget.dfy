/** A run that halts at its first retarget. */
module FirstRetarget {
  import opened Domain
  import opened Compact
  import opened Retarget
  import opened Ledger
  import opened Chains
  import opened Consensus
  import opened Runs
  import opened History
  import opened Halting
  import opened RivalWorld
  import opened Rivals

  /** One second lies between a block and the next, and all have the same bits. */
  ghost predicate Steady(path: seq<Block>, bits: nat) {
    forall i :: 0 <= i < |path| ==> path[i].header.timestamp == i && path[i].header.bits == bits
  }

  ghost predicate Low(blocks: Blocks, n: nat) { forall h :: h in blocks ==> blocks[h].header.index < n }

  ghost predicate GenesisesInRange(events: seq<Event>) { forall k :: 0 <= k < |events| ==> GenesisInRange(events[k]) }

  lemma OneMoreEmpty(p: Params, states: seq<State>, events: seq<Event>, t: int, path: seq<Block>, u: UtxoSet)
    returns (states': seq<State>, events': seq<Event>)
    requires p.maxFuture >= 0 && t > 0 && Reaches(p, states, events, t, path, []) && Leaves(path, u) && u == Funded()
    requires |path| < WINDOW
    ensures var b := Made(path, t, []);
      && Reaches(p, states', events', t + 1, path + [b], []) && Leaves(path + [b], u)
      && events' == events + [Inserting(b, t)]
      && states'[|events'|].store.blocks == states[|events|].store.blocks[b.hash := b]
  {
    BareFits(path, u, t);
    states', events' := Insertion(p, states, events, t, path, [], u, [], u);
  }

  lemma SteadyOn(path: seq<Block>, bits: nat, events: seq<Event>)
    requires path != [] && Steady(path, bits) && GenesisesInRange(events)
    ensures var b := Made(path, |path|, []);
      Steady(path + [b], bits) && GenesisesInRange(events + [Inserting(b, |path|)])
  {
  }

  /** A run of empty blocks, one second apart. */
  ghost predicate Grew(p: Params, bits: nat, u: UtxoSet, states: seq<State>, events: seq<Event>, path: seq<Block>) {
    && Reaches(p, states, events, |path|, path, []) && Leaves(path, u) && u == Funded()
    && Steady(path, bits) && GenesisesInRange(events) && Low(states[|events|].store.blocks, |path|)
  }

  lemma LowOn(blocks: Blocks, blocks': Blocks, path: seq<Block>)
    requires path != [] && Low(blocks, |path|)
    requires var b := Made(path, |path|, []); blocks' == blocks[b.hash := b]
    ensures Low(blocks', |path| + 1)
  {
  }

  lemma RootFacts(g: Block, path: seq<Block>, bits: nat, blocks: Blocks, events: seq<Event>)
    requires g == Genesis(bits) && path == [g] && blocks == map[GENESIS_HASH := g] && events == [Inserting(g, 0)]
    requires InRange(bits)
    ensures |path| == 1 && Steady(path, bits) && GenesisesInRange(events) && Low(blocks, |path|)
  {
  }

  lemma Starts(p: Params, bits: nat, u: UtxoSet) returns (states: seq<State>, events: seq<Event>, path: seq<Block>)
    requires p.maxFuture >= 0 && InRange(bits) && u == Funded()
    ensures Grew(p, bits, u, states, events, path) && |path| == 1
  {
    states, events, path := Opening(p, bits);
    RootFacts(Genesis(bits), path, bits, states[|events|].store.blocks, events);
  }

  lemma Grows(p: Params, bits: nat, u: UtxoSet, states: seq<State>, events: seq<Event>, path: seq<Block>)
    returns (states': seq<State>, events': seq<Event>, path': seq<Block>)
    requires p.maxFuture >= 0 && Grew(p, bits, u, states, events, path) && |path| < WINDOW
    ensures Grew(p, bits, u, states', events', path') && |path'| == |path| + 1
  {
    SteadyOn(path, bits, events);
    states', events' := OneMoreEmpty(p, states, events, |path|, path, u);
    path' := path + [Made(path, |path|, [])];
    LowOn(states[|events|].store.blocks, states'[|events'|].store.blocks, path);
  }

  /** Genesis with the given bits and empty blocks one second apart, n blocks in all. */
  lemma {:induction false} EmptyBlocks(p: Params, bits: nat, u: UtxoSet, n: nat)
    returns (states: seq<State>, events: seq<Event>, path: seq<Block>)
    requires p.maxFuture >= 0 && InRange(bits) && 0 < n <= WINDOW && u == Funded()
    ensures Grew(p, bits, u, states, events, path) && |path| == n
  {
    if n == 1 {
      states, events, path := Starts(p, bits, u);
    } else {
      var states', events', path' := EmptyBlocks(p, bits, u, n - 1);
      states, events, path := Grows(p, bits, u, states', events', path');
    }
  }

  lemma SteadyTarget(w: seq<Header>, bits: nat, prev: nat)
    requires |w| == WINDOW && w[0].timestamp - w[WINDOW - 1].timestamp == WINDOW - 1
    requires (forall i :: 0 <= i < WINDOW ==> w[i].bits == bits) && Decode(bits) == prev == 5
    ensures !ProgressionOk(prev, Decode(NextBits(w, 60)))
  {
    FlatAverage(Targets(w), prev, prev);
    ShortSpan(Average(Targets(w)), WINDOW - 1, prev, prev);
    SmallIsExact(prev / 4);
  }

  lemma SteadyDeadlocks(p: Params, s: State, path: seq<Block>, bits: nat)
    requires Inv(World(), Naming, s) && Linked(s.store.blocks) && s.tip.Some? && path == Path(s) && |path| == WINDOW
    requires s.bits == bits && Decode(bits) == 5 && Steady(path, bits) && p.interval == 60
    ensures Deadlocked(p, s)
  {
    WindowOfPath(World(), Naming, s, path, WINDOW);
    SteadyTarget(WindowBelow(s.store, |path|, WINDOW).value, bits, 5);
  }

  lemma SteadyHalts(p: Params, s: State, path: seq<Block>, bits: nat)
    requires Standing(s, WINDOW, path, []) && Low(s.store.blocks, WINDOW) && |path| == WINDOW
    requires Decode(bits) == 5 && Steady(path, bits) && p.interval == 60
    ensures Halted(World(), Naming, p, s)
  {
    SteadyDeadlocks(p, s, path, bits);
  }

  /** With a genesis target of 5 and blocks one second apart the node halts at its first retarget: it asks for target
      1, and 1 is more than four times harder than 5. */
  lemma HaltingRun(p: Params) returns (states: seq<State>, events: seq<Event>)
    requires p.maxFuture >= 0 && p.interval == 60
    ensures CaseFolds(World()) && IsRun(World(), Naming, p, states, events) && GenesisesInRange(events)
    ensures Halted(World(), Naming, p, states[|events|])
  {
    var path;
    var bits := Encode(5);
    SmallIsExact(5);
    states, events, path := EmptyBlocks(p, bits, Funded(), WINDOW);
    SteadyHalts(p, states[|events|], path, bits);
  }
}
