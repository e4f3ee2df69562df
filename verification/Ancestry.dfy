/** Median-time-past in every state of every run: a hash fixes the headers below it, so a path that obeyed the rule
    when it was built obeys it whenever it is whole again. */
module Ancestry {
  import opened Domain
  import opened MedianTime
  import opened Storage
  import opened Chains
  import opened Consensus
  import opened Runs
  import opened History
  import opened Timeline

  /** The header hash is collision-free. */
  ghost predicate OneHeader(env: Env) {
    forall a: Header, b: Header :: env.headerHash(a) == env.headerHash(b) ==> a == b
  }

  function Headers(chain: seq<Block>): (hs: seq<Header>)
    ensures |hs| == |chain| && forall i :: 0 <= i < |hs| ==> hs[i] == chain[i].header
  {
    seq(|chain|, i requires 0 <= i < |chain| => chain[i].header)
  }

  function HeaderTimes(hs: seq<Header>): (ts: seq<int>)
    ensures |ts| == |hs| && forall i :: 0 <= i < |ts| ==> ts[i] == hs[i].timestamp
  {
    seq(|hs|, i requires 0 <= i < |hs| => hs[i].timestamp)
  }

  /** The headers lead from height 0 to the one hashed to h, each naming the one before it. */
  ghost predicate LeadsTo(env: Env, hs: seq<Header>, h: string) {
    && |hs| > 0 && env.headerHash(hs[|hs| - 1]) == h
    && if |hs| == 1 then hs[0].index == 0
       else hs[|hs| - 1].index > 0 && LeadsTo(env, hs[..|hs| - 1], hs[|hs| - 1].previous)
  }

  lemma {:induction false} OneWay(env: Env, hs: seq<Header>, hs': seq<Header>, h: string)
    requires OneHeader(env) && LeadsTo(env, hs, h) && LeadsTo(env, hs', h)
    ensures hs == hs'
  {
    var last, last' := hs[|hs| - 1], hs'[|hs'| - 1];
    assert last == last';
    assert hs == hs[..|hs| - 1] + [last] && hs' == hs'[..|hs'| - 1] + [last'];
    if |hs| > 1 {
      OneWay(env, hs[..|hs| - 1], hs'[..|hs'| - 1], last.previous);
    }
  }

  lemma {:induction false} PathLeads(env: Env, naming: string -> Tx, blocks: Blocks, h: string)
    requires BlocksStored(env, naming, blocks) && Linked(blocks) && Rooted(blocks, h)
    ensures LeadsTo(env, Headers(Chain(blocks, h)), h)
    decreases blocks[h].header.index
  {
    assert BlockStored(env, naming, h, blocks[h]);
    if blocks[h].header.index > 0 {
      var parent := blocks[h].header.previous;
      ChainEntries(blocks, parent);
      PathLeads(env, naming, blocks, parent);
      HeadersExtend(Chain(blocks, parent), blocks[h]);
    }
  }

  lemma HeadersExtend(chain: seq<Block>, b: Block)
    ensures Headers(chain + [b])[..|chain|] == Headers(chain) && Headers(chain + [b])[|chain|] == b.header
  {
  }

  /** Some line of headers down to height 0 ends in h and obeys the rule throughout. */
  ghost predicate Proper(env: Env, h: string) {
    exists hs :: LeadsTo(env, hs, h) && ObeysMedianTime(HeaderTimes(hs))
  }

  ghost predicate AllProper(env: Env, blocks: Blocks) {
    forall h :: h in blocks ==> Proper(env, h)
  }

  lemma SameTimes(chain: seq<Block>)
    ensures HeaderTimes(Headers(chain)) == Times(chain)
  {
  }

  /** By uniqueness the stored path is that line. */
  lemma ProperPathObeys(env: Env, naming: string -> Tx, blocks: Blocks, h: string)
    requires OneHeader(env) && BlocksStored(env, naming, blocks) && Linked(blocks)
    requires Rooted(blocks, h) && Proper(env, h)
    ensures ObeysMedianTime(Times(Chain(blocks, h)))
  {
    var hs :| LeadsTo(env, hs, h) && ObeysMedianTime(HeaderTimes(hs));
    PathLeads(env, naming, blocks, h);
    OneWay(env, hs, Headers(Chain(blocks, h)), h);
    SameTimes(Chain(blocks, h));
  }

  /** A header that passed the checks on a rooted parent is proper. */
  lemma PassedIsProper(env: Env, naming: string -> Tx, blocks: Blocks, b: Block)
    requires OneHeader(env) && BlocksStored(env, naming, blocks) && Linked(blocks) && AllProper(env, blocks)
    requires env.headerHash(b.header) == b.hash
    requires b.header.index > 0 ==> Rooted(blocks, b.header.previous) && MedianTimeOk(blocks, b)
    ensures Proper(env, b.hash)
  {
    if b.header.index == 0 {
      assert LeadsTo(env, [b.header], b.hash) && ObeysMedianTime(HeaderTimes([b.header]));
    } else {
      var parent := b.header.previous;
      var chain := Chain(blocks, parent);
      ProperPathObeys(env, naming, blocks, parent);
      NextObeys(blocks, b);
      PathLeads(env, naming, blocks, parent);
      HeadersExtend(chain, b);
      SameTimes(chain + [b]);
      var hs := Headers(chain + [b]);
      assert LeadsTo(env, hs, b.hash) && ObeysMedianTime(HeaderTimes(hs));
    }
  }

  lemma NextObeys(blocks: Blocks, b: Block)
    requires Linked(blocks) && Rooted(blocks, b.header.previous) && MedianTimeOk(blocks, b)
    requires ObeysMedianTime(Times(Chain(blocks, b.header.previous)))
    ensures ObeysMedianTime(Times(Chain(blocks, b.header.previous) + [b]))
  {
    var chain := Chain(blocks, b.header.previous);
    var ts := Times(chain);
    TimesBackIsNewest(blocks, b.header.previous, SPAN);
    PredecessorsAreNewest(ts, |ts|);
    assert ts[..|ts|] == ts;
    ObeysExtends(ts, b.header.timestamp);
    TimesExtend(chain, b);
  }

  /** A fork block is stored on a parent whose own path is whole. */
  ghost predicate OnWholePath(s: State, e: Event) {
    e.StoringFork? ==> Linked(s.store.blocks) && Rooted(s.store.blocks, e.block.header.previous)
  }

  /** What a passed header check says about the header alone. */
  lemma HeaderPassed(env: Env, p: Params, s: State, b: Block, now: int, fork: bool)
    requires CheckHeader(env, p, s, b, now, fork).Ok?
    ensures env.headerHash(b.header) == b.hash && (b.header.index > 0 ==> MedianTimeOk(s.store.blocks, b))
  {
  }

  lemma Inserted(env: Env, p: Params, s: State, b: Block, now: int)
    requires Insert(env, p, s, b, now).Ok? && b.hash !in s.store.blocks
    ensures CheckHeader(env, p, s, b, now, false).Ok?
    ensures Insert(env, p, s, b, now).value.store.blocks == s.store.blocks[b.hash := b]
  {
  }

  lemma ForkStored(env: Env, p: Params, s: State, b: Block, now: int)
    requires StoreFork(env, p, s, b, now).Ok?
    ensures CheckHeader(env, p, s, b, now, true).Ok?
    ensures StoreFork(env, p, s, b, now).value.store.blocks == s.store.blocks[b.hash := b]
  {
  }

  lemma InsertKeepsProper(env: Env, naming: string -> Tx, p: Params, s: State, b: Block, now: int)
    requires OneHeader(env) && Inv(env, naming, s) && AllProper(env, s.store.blocks)
    requires Insert(env, p, s, b, now).Ok? && (b.hash !in s.store.blocks ==> HeightFits(env, b.header))
    ensures AllProper(env, Insert(env, p, s, b, now).value.store.blocks)
  {
    if b.hash !in s.store.blocks {
      StoredIsLinked(env, naming, s.store.blocks);
      Inserted(env, p, s, b, now);
      HeaderPassed(env, p, s, b, now, false);
      PassedHeaderExtends(env, naming, p, s, b, now);
      PassedIsProper(env, naming, s.store.blocks, b);
    }
  }

  lemma ForkKeepsProper(env: Env, naming: string -> Tx, p: Params, s: State, b: Block, now: int)
    requires OneHeader(env) && BlocksStored(env, naming, s.store.blocks) && AllProper(env, s.store.blocks)
    requires StoreFork(env, p, s, b, now).Ok? && Linked(s.store.blocks) && Rooted(s.store.blocks, b.header.previous)
    ensures AllProper(env, StoreFork(env, p, s, b, now).value.store.blocks)
  {
    ForkStored(env, p, s, b, now);
    HeaderPassed(env, p, s, b, now, true);
    PassedIsProper(env, naming, s.store.blocks, b);
  }

  lemma MoveKeepsProper(env: Env, p: Params, s: State, h: string)
    requires Linked(s.store.blocks) && AllProper(env, s.store.blocks) && Reorganize(p, s, h).Ok?
    ensures AllProper(env, Reorganize(p, s, h).value.state.store.blocks)
  {
    if Reorganize(p, s, h).value.moved {
      ReorganizationCases(p, s, h);
      var plan := PlanOf(p, s.store.blocks, s.tip.value, h).value;
      UndoRemoves(s.store.txs, s.store, plan.rollback);
      ReplayKeepsRest(UndoBlocks(s.store.txs, s.store, plan.rollback), plan.apply);
    }
  }

  lemma StepKeepsProper(env: Env, naming: string -> Tx, p: Params, s: State, e: Event, s': State)
    requires OneHeader(env) && Inv(env, naming, s) && Step(env, naming, p, s, e, s')
    requires OnWholePath(s, e) && AllProper(env, s.store.blocks)
    ensures AllProper(env, s'.store.blocks)
  {
    match e
    case Inserting(b, now) =>
      if Insert(env, p, s, b, now).Ok? {
        InsertKeepsProper(env, naming, p, s, b, now);
      }
    case StoringFork(b, now) =>
      if StoreFork(env, p, s, b, now).Ok? {
        ForkKeepsProper(env, naming, p, s, b, now);
      }
    case Reorganizing(h) =>
      if Reorganize(p, s, h).Ok? {
        MoveKeepsProper(env, p, s, h);
      }
  }

  lemma {:induction false} RunKeepsProper(env: Env, naming: string -> Tx, p: Params, states: seq<State>,
                                          events: seq<Event>, i: nat)
    requires OneHeader(env) && CaseFolds(env) && IsRun(env, naming, p, states, events) && i < |states|
    requires forall k :: 0 <= k < |events| ==> OnWholePath(states[k], events[k])
    ensures AllProper(env, states[i].store.blocks)
  {
    if i > 0 {
      RunKeepsProper(env, naming, p, states, events, i - 1);
      RunKeeps(env, naming, p, states, events, i - 1);
      assert OnWholePath(states[i - 1], events[i - 1]);
      StepKeepsProper(env, naming, p, states[i - 1], events[i - 1], states[i]);
    }
  }

  /** In every state of every run, along every stored path that is whole, the tip's among them, each block is later
      than the median of its predecessors and median-time-past never goes back, whatever was rolled back and
      stored again in between. */
  lemma RunKeepsMedianTime(env: Env, naming: string -> Tx, p: Params, states: seq<State>, events: seq<Event>, i: nat,
                           h: string)
    requires OneHeader(env) && CaseFolds(env) && IsRun(env, naming, p, states, events) && i < |states|
    requires forall k :: 0 <= k < |events| ==> OnWholePath(states[k], events[k])
    ensures Linked(states[i].store.blocks)
    ensures states[i].tip.Some? ==> Rooted(states[i].store.blocks, states[i].tip.value)
    ensures Rooted(states[i].store.blocks, h) ==>
      var ts := Times(Chain(states[i].store.blocks, h));
      && ObeysMedianTime(ts)
      && forall j, k :: 0 < j <= k <= |ts| ==> Median(Predecessors(ts, j)) <= Median(Predecessors(ts, k))
  {
    var blocks := states[i].store.blocks;
    RunKeeps(env, naming, p, states, events, i);
    StoredIsLinked(env, naming, blocks);
    RunKeepsProper(env, naming, p, states, events, i);
    if Rooted(blocks, h) {
      ProperPathObeys(env, naming, blocks, h);
      MedianNeverBack(Times(Chain(blocks, h)));
    }
  }

  lemma MedianNeverBack(ts: seq<int>)
    requires ObeysMedianTime(ts)
    ensures forall j, k :: 0 < j <= k <= |ts| ==> Median(Predecessors(ts, j)) <= Median(Predecessors(ts, k))
  {
    forall j, k | 0 < j <= k <= |ts|
      ensures Median(Predecessors(ts, j)) <= Median(Predecessors(ts, k))
    {
      MedianTimeNeverDecreases(ts, j, k);
    }
  }
}
