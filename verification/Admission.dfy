/** What a block has shown by the time the node stores it, and what the refusals mean. */
module Admission {
  import opened Domain
  import opened Bytes
  import opened Compact
  import opened Retarget
  import opened MedianTime
  import Merkle
  import opened Storage
  import opened Chains
  import opened TxRules
  import opened Consensus
  import opened Runs
  import opened History

  /** The hash, read as a number, is below the target. */
  predicate Mined(env: Env, hash: string, bits: nat) {
    match env.hashValue(hash)
    case None => false
    case Some(v) => v < Decode(bits)
  }

  /** The root of the tree over the txids, in order. */
  function TreeRoot(env: Env, txs: seq<Tx>): (root: string)
    requires txs != []
  {
    env.hexOf(Merkle.Root(env.pairHash, Leaves(env, txs)))
  }

  function Leaves(env: Env, txs: seq<Tx>): (xs: seq<string>)
    ensures |xs| == |txs| && forall i :: 0 <= i < |txs| ==> xs[i] == env.leafOf(txs[i].txid)
  {
    seq(|txs|, i requires 0 <= i < |txs| => env.leafOf(txs[i].txid))
  }

  /** What the checks have established about the block alone. */
  ghost predicate Vetted(env: Env, p: Params, b: Block, now: int) {
    && env.headerHash(b.header) == b.hash
    && (b.header.index == 0 ==> b.hash == "0047bb75cef130263090ec45c9e5b464ab0f56c556821cb3a40d59dbf31e7216")
    && Mined(env, b.hash, b.header.bits)
    && b.header.timestamp <= now + p.maxFuture
    && b.header.merkleRoot == if b.txs == [] then env.emptyRoot else TreeRoot(env, b.txs)
  }

  /** Whatever passes the header checks, as a block on the tip or as a fork block, is vetted. */
  lemma PassedIsVetted(env: Env, p: Params, s: State, b: Block, now: int, fork: bool)
    requires CheckHeader(env, p, s, b, now, fork).Ok?
    ensures Vetted(env, p, b, now)
  {
    assert b.txs != [] ==>
      Leaves(env, b.txs) == seq(|b.txs|, i requires 0 <= i < |b.txs| => env.leafOf(b.txs[i].txid));
  }

  /** And every vetted block passes that continues the right chain: with the bits the node asks for, a stored parent
      (the tip, unless it is checked as a fork block), a step of target of at most fourfold, and a time after the median
      of its predecessors. A block of height 0 needs nothing more. */
  lemma PassedIff(env: Env, p: Params, s: State, b: Block, now: int, fork: bool)
    ensures CheckHeader(env, p, s, b, now, fork).Ok?
      <==> && Vetted(env, p, b, now)
           && (b.header.index > 0 ==>
                 && b.header.bits == ExpectedBits(p, s, b.header.index)
                 && b.header.previous in s.store.blocks
                 && (!fork ==> s.tip.None? || s.tip.value == b.header.previous)
                 && FourfoldAtMost(Decode(s.store.blocks[b.header.previous].header.bits), Decode(b.header.bits))
                 && LaterThanMedian(s.store.blocks, b))
  {
    assert b.txs != [] ==>
      Leaves(env, b.txs) == seq(|b.txs|, i requires 0 <= i < |b.txs| => env.leafOf(b.txs[i].txid));
    if b.header.previous in s.store.blocks {
      FourfoldIff(Decode(s.store.blocks[b.header.previous].header.bits), Decode(b.header.bits));
    }
  }

  /** Neither target is five times the other or more; nothing is asked of a step from zero, and none may lead there. */
  predicate FourfoldAtMost(prev: nat, current: nat) {
    current > 0 && (prev == 0 || (current < 5 * prev && prev < 5 * current))
  }

  lemma FourfoldIff(prev: nat, current: nat)
    ensures ProgressionOk(prev, current) <==> FourfoldAtMost(prev, current)
  {
    if prev > 0 && current > 0 {
      AtMostFour(current, prev);
      AtMostFour(prev, current);
    }
  }

  lemma AtMostFour(a: nat, b: nat)
    requires b > 0
    ensures a / b <= 4 <==> a < 5 * b
  {
    if a < 5 * b {
      QuotientAtMost(a, b, 4);
    } else {
      DivMonotone(5 * b, a, b);
      DivModUnique(5, 0, b);
    }
  }

  /** Later than the median of the up to eleven times behind the block. */
  predicate LaterThanMedian(blocks: Blocks, b: Block) {
    var ts := TimesBack(blocks, b.header.previous, 11);
    ts == [] || b.header.timestamp > Median(ts)
  }

  /** So is whatever insertion accepts anew and whatever is stored as a fork block. */
  lemma AcceptedIsVetted(env: Env, p: Params, s: State, b: Block, now: int)
    ensures Insert(env, p, s, b, now).Ok? && b.hash !in s.store.blocks ==> Vetted(env, p, b, now)
    ensures StoreFork(env, p, s, b, now).Ok? ==> Vetted(env, p, b, now)
  {
    if CheckHeader(env, p, s, b, now, false).Ok? {
      PassedIsVetted(env, p, s, b, now, false);
    }
    if CheckHeader(env, p, s, b, now, true).Ok? {
      PassedIsVetted(env, p, s, b, now, true);
    }
  }

  /** Every refusal has its reason: a header is refused only for what is wrong with it, and one whose hash and
      checkpoint are right is refused for its work exactly when it was not mined. */
  lemma RefusalIsReal(env: Env, p: Params, s: State, b: Block, now: int, fork: bool)
    ensures var r, h := CheckHeader(env, p, s, b, now, fork), b.header;
      && (r == Err(HeaderHashMismatch) <==> env.headerHash(h) != b.hash)
      && (r == Err(CheckpointViolation) ==>
            h.index == 0 && b.hash != "0047bb75cef130263090ec45c9e5b464ab0f56c556821cb3a40d59dbf31e7216")
      && (r == Err(InvalidPow) ==> !Mined(env, b.hash, h.bits))
      && (r == Err(InvalidPow)
          || r == Err(HeaderHashMismatch) || r == Err(CheckpointViolation) || Mined(env, b.hash, h.bits))
      && (r == Err(DifficultyMismatch) ==> h.index > 0 && h.bits != ExpectedBits(p, s, h.index))
      && (r == Err(PreviousNotFound) ==> h.index > 0 && h.previous !in s.store.blocks)
      && (r == Err(ForkDetected) ==> h.index > 0 && !fork && h.previous in s.store.blocks && s.tip != Some(h.previous))
      && (r == Err(TooFarInFuture) ==> h.timestamp > now + p.maxFuture)
      && (r == Err(TargetJump) ==>
            h.index > 0 && h.previous in s.store.blocks
            && !FourfoldAtMost(Decode(s.store.blocks[h.previous].header.bits), Decode(h.bits)))
      && (r == Err(MerkleMismatch) ==> b.txs == [] || h.merkleRoot != TreeRoot(env, b.txs))
      && (r == Err(MedianTimePast) ==> h.index > 0 && !LaterThanMedian(s.store.blocks, b))
  {
    assert b.txs != [] ==>
      Leaves(env, b.txs) == seq(|b.txs|, i requires 0 <= i < |b.txs| => env.leafOf(b.txs[i].txid));
    if b.header.previous in s.store.blocks {
      FourfoldIff(Decode(s.store.blocks[b.header.previous].header.bits), Decode(b.header.bits));
    }
  }

  // ---- over runs ----

  /** The operation submits this block and the checks passed at that time. */
  ghost predicate Submits(env: Env, p: Params, e: Event, b: Block) {
    (e.Inserting? || e.StoringFork?) && e.block == b && Vetted(env, p, b, e.now)
  }

  ghost predicate AllSubmitted(env: Env, p: Params, blocks: Blocks, events: seq<Event>, i: nat)
    requires i <= |events|
  {
    forall h :: h in blocks ==> blocks[h].hash == h && exists k :: 0 <= k < i && Submits(env, p, events[k], blocks[h])
  }

  lemma StepStores(env: Env, naming: string -> Tx, p: Params, s: State, e: Event, s': State, h: string)
    requires Step(env, naming, p, s, e, s') && h in s'.store.blocks
    ensures h in s.store.blocks || s'.store.blocks[h].hash == h
    ensures (h in s.store.blocks && s'.store.blocks[h] == s.store.blocks[h]) || Submits(env, p, e, s'.store.blocks[h])
  {
    match e
    case Inserting(b, now) =>
      AcceptedIsVetted(env, p, s, b, now);
    case StoringFork(b, now) =>
      AcceptedIsVetted(env, p, s, b, now);
    case Reorganizing(x) =>
      if Reorganize(p, s, x).Ok? && Reorganize(p, s, x).value.moved {
        var plan := PlanOf(p, s.store.blocks, s.tip.value, x).value;
        UndoRemoves(s.store.txs, s.store, plan.rollback);
        ReplayKeepsRest(UndoBlocks(s.store.txs, s.store, plan.rollback), plan.apply);
      }
  }

  /** In every state of every run each stored block was submitted by an earlier operation, which had checked its hash,
      its work against the target it states, its time and its transactions' root. */
  lemma {:induction false} RunStoresVetted(env: Env, naming: string -> Tx, p: Params, states: seq<State>,
                                           events: seq<Event>, i: nat)
    requires IsRun(env, naming, p, states, events) && i <= |events|
    ensures AllSubmitted(env, p, states[i].store.blocks, events, i)
  {
    if i > 0 {
      RunStoresVetted(env, naming, p, states, events, i - 1);
      forall h | h in states[i].store.blocks
        ensures states[i].store.blocks[h].hash == h
        ensures exists k :: 0 <= k < i && Submits(env, p, events[k], states[i].store.blocks[h])
      {
        StepStores(env, naming, p, states[i - 1], events[i - 1], states[i], h);
        if Submits(env, p, events[i - 1], states[i].store.blocks[h]) {
          assert 0 <= i - 1 < i;
        }
      }
    }
  }

  lemma SubmittedIsMined(env: Env, p: Params, blocks: Blocks, events: seq<Event>, i: nat, h: string)
    requires i <= |events| && AllSubmitted(env, p, blocks, events, i) && h in blocks
    ensures Mined(env, h, blocks[h].header.bits)
  {
  }

  /** In every state of every run the hash of each stored block is below the target its own header states. */
  lemma RunKeepsWork(env: Env, naming: string -> Tx, p: Params, states: seq<State>, events: seq<Event>, i: nat,
                     h: string)
    requires IsRun(env, naming, p, states, events) && i <= |events| && h in states[i].store.blocks
    ensures env.hashValue(h).Some? && env.hashValue(h).value < Decode(states[i].store.blocks[h].header.bits)
  {
    var blocks := states[i].store.blocks;
    RunStoresVetted(env, naming, p, states, events, i);
    SubmittedIsMined(env, p, blocks, events, i, h);
  }

  // ---- the header fixes the transactions ----

  ghost predicate Faithful(env: Env) {
    && Merkle.Injective(env.pairHash)
    && (forall x, y :: env.hexOf(x) == env.hexOf(y) ==> x == y)
    && (forall x, y :: env.leafOf(x) == env.leafOf(y) ==> x == y)
  }

  /** With collision-free hashes, two vetted blocks with one hash and equally many transactions have the same txids in
      the same order. */
  lemma HashFixesTxids(env: Env, p: Params, a: Block, b: Block, now: int, later: int)
    requires Faithful(env) && (forall x, y :: env.headerHash(x) == env.headerHash(y) ==> x == y)
    requires Vetted(env, p, a, now) && Vetted(env, p, b, later) && a.hash == b.hash && |a.txs| == |b.txs|
    ensures a.header == b.header && forall i :: 0 <= i < |a.txs| ==> a.txs[i].txid == b.txs[i].txid
  {
    if a.txs != [] {
      var xs, ys := Leaves(env, a.txs), Leaves(env, b.txs);
      Merkle.RootBinds(env.pairHash, xs, ys);
      forall i | 0 <= i < |a.txs|
        ensures a.txs[i].txid == b.txs[i].txid
      {
        assert xs[i] == ys[i];
      }
    }
  }
}
