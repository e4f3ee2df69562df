/** The node's blockchain object: database, tip and difficulty, changed in place. */
module Node {
  import opened Domain
  import opened Seqs
  import opened Bytes
  import opened Compact
  import opened Retarget
  import opened MedianTime
  import Merkle
  import opened Storage
  import opened Chains
  import opened TxRules
  import opened Consensus
  import opened Batches
  import opened Runs
  import opened Adoption

  class Blockchain {
    const env: Env
    const params: Params
    var store: Store
    var chainTip: Option<string>
    var difficulty: nat

    ghost function Current(): (s: State)
      reads this
    {
      State(store, chainTip, difficulty)
    }

    /** Open a database, which is empty the first time. */
    constructor (env: Env, params: Params, stored: Store)
      ensures Current() == Opened(stored)
      ensures this.env == env && this.params == params
    {
      this.env := env;
      this.params := params;
      store := stored;
      chainTip := stored.tip;
      difficulty := POW_LIMIT_BITS;
      if stored.tip.Some? {
        if stored.tip.value in stored.blocks {
          difficulty := stored.blocks[stored.tip.value].header.bits;
        }
      }
    }

    // ---- header rules ----

    method CalculateAdjustedDifficulty(index: nat) returns (bits: nat)
      ensures bits == ExpectedBits(params, Current(), index)
    {
      if index < WINDOW {
        return difficulty;
      }
      var gathered := GatherWindow(index);
      if gathered.None? {
        return difficulty;
      }
      var g := gathered.value;
      var t := NextTarget(g.avg, g.newest - g.oldest, params.interval, Decode(g.previousBits));
      NextTargetFits(g.avg, g.newest - g.oldest, params.interval, Decode(g.previousBits));
      bits := TargetToCompact(t);
    }

    /** Read the last 24 indexed headers, keeping the running average and the end points. */
    method GatherWindow(index: nat) returns (r: Option<Gathered>)
      requires WINDOW <= index
      ensures match WindowBelow(store, index, WINDOW)
        case None => r.None?
        case Some(w) => r.Some? && Summarizes(w, r.value)
    {
      var g := Gathered(0, 0, 0, 0);
      ghost var w: seq<Header> := [];
      for i := 1 to WINDOW + 1
        invariant WindowBelow(store, index, i - 1) == Some(w)
        invariant i > 1 ==> Summarizes(w, g)
      {
        var height := index - i;
        if height !in store.index || store.index[height] !in store.blocks {
          WindowBroken(store, index, i, WINDOW);
          return None;
        }
        var header := store.blocks[store.index[height]].header;
        var target := EffectiveTarget(header.bits);
        AverageExtends(w, header);
        if i == 1 {
          g := Gathered(target, header.timestamp, header.timestamp, header.bits);
        } else {
          g := g.(avg := AverageStep(g.avg, i, target), oldest := header.timestamp);
        }
        w := w + [header];
      }
      r := Some(g);
    }

    method ValidateMedianTimePast(b: Block) returns (ok: bool)
      ensures ok == MedianTimeOk(store.blocks, b)
    {
      var times := CollectTimes(b.header.previous);
      return times == [] || b.header.timestamp > Median(times);
    }

    /** Walk back through the stored parents, at most the span, stopping at genesis or at a gap. */
    method CollectTimes(start: string) returns (times: seq<int>)
      ensures times == TimesBack(store.blocks, start, SPAN)
    {
      times := [];
      var h := start;
      for i := 0 to SPAN
        invariant TimesBack(store.blocks, start, SPAN) == times + TimesBack(store.blocks, h, SPAN - i)
      {
        if h !in store.blocks {
          return;
        }
        var header := store.blocks[h].header;
        TimesNext(store.blocks, h, SPAN - i, times);
        times := times + [header.timestamp];
        if header.index == 0 {
          return;
        }
        h := header.previous;
      }
    }

    method MerkleRoot(txs: seq<Tx>) returns (root: string)
      ensures root == RootOf(env, txs)
    {
      if txs == [] {
        return env.emptyRoot;
      }
      var leaves := seq(|txs|, i requires 0 <= i < |txs| => env.leafOf(txs[i].txid));
      var top := Merkle.ComputeRoot(env.pairHash, leaves);
      return env.hexOf(top);
    }

    /** Checks 1 to 4, in order; a missing tip is replaced on the way. */
    method ValidateOrigin(b: Block, ghost now: int, fork: bool) returns (r: Result<()>)
      modifies this`store, this`chainTip
      ensures var s := old(Current());
        if !fork && s.tip.Some? && s.tip.value !in s.store.blocks
           && CheckHeader(env, params, s, b, now, fork) == Err(ForkDetected)
        then Recovered(s, Current()) else Current() == s
      ensures r.Err? ==> CheckHeader(env, params, Current(), b, now, fork) == r
      ensures r.Ok? ==> OriginOk(env, params, Current(), b, fork)
    {
      var h := b.header;
      if env.headerHash(h) != b.hash {
        return Err(HeaderHashMismatch);
      }
      if !CheckpointOk(h.index, b.hash) {
        return Err(CheckpointViolation);
      }
      if !ValidPow(env, b.hash, h.bits) {
        return Err(InvalidPow);
      }
      if h.index == 0 {
        return Ok(());
      }
      var expected := CalculateAdjustedDifficulty(h.index);
      if h.bits != expected {
        return Err(DifficultyMismatch);
      }
      if h.previous !in store.blocks {
        return Err(PreviousNotFound);
      }
      if !fork && chainTip.Some? {
        if chainTip.value !in store.blocks {
          var recovered := RecoverTip();
          ExpectedIgnoresTip(params, old(Current()), Current(), h.index);
        }
        if h.previous != chainTip.value {
          return Err(ForkDetected);
        }
      }
      return Ok(());
    }

    /** Checks 1 to 8, in order, of insertion and (with `fork`) of fork-block validation. */
    method ValidateHeader(b: Block, now: int, fork: bool) returns (r: Result<()>)
      modifies this`store, this`chainTip
      ensures var s := old(Current());
        if !fork && s.tip.Some? && s.tip.value !in s.store.blocks
           && CheckHeader(env, params, s, b, now, fork) == Err(ForkDetected)
        then Recovered(s, Current()) else Current() == s
      ensures r == CheckHeader(env, params, Current(), b, now, fork)
    {
      var h := b.header;
      r := ValidateOrigin(b, now, fork);
      if r.Err? {
        return;
      }
      if h.timestamp > now + params.maxFuture {
        return Err(TooFarInFuture);
      }
      if h.index > 0 && !ProgressionOk(Decode(store.blocks[h.previous].header.bits), Decode(h.bits)) {
        return Err(TargetJump);
      }
      var root := MerkleRoot(b.txs);
      if root != h.merkleRoot {
        return Err(MerkleMismatch);
      }
      if h.index > 0 {
        var ok := ValidateMedianTimePast(b);
        if !ok {
          return Err(MedianTimePast);
        }
      }
      return Ok(());
    }

    // ---- insertion ----

    /** Insertion into the state found, or, when the tip's block is missing and nothing earlier speaks against the
        block, into the state with a recovered tip. */
    method ValidateAndInsertBlock(b: Block, now: int) returns (r: Result<()>, ghost from: State)
      modifies this
      ensures var s := old(Current());
        if s.tip.Some? && s.tip.value !in s.store.blocks && TurnedAway(env, params, s, b, now) then Recovered(s, from)
        else from == s
      ensures match Insert(env, params, from, b, now)
        case Ok(s) => r.Ok? && Current() == s
        case Err(e) => r == Err(e) && Current() == from
    {
      from := Current();
      if b.hash in store.blocks {
        return Ok(()), from;
      }
      r := ValidateHeader(b, now, false);
      from := Current();
      if r.Err? {
        return;
      }
      var queued := QueueBlock(env, store, b);
      if queued.Err? {
        return Err(queued.error), from;
      }
      var batch := queued.value;
      CommitBlock(store, batch, b);
      batch := batch + [PutBlock(b)] + [PutIndex(b.header.index, b.hash)] + [PutTip(b.hash)];
      store := Commit(store, batch);
      chainTip := Some(b.hash);
      difficulty := b.header.bits;
      r := Ok(());
    }

    method ValidateForkBlock(b: Block, now: int) returns (r: Result<()>)
      modifies this
      ensures match StoreFork(env, params, old(Current()), b, now)
        case Ok(s) => r.Ok? && Current() == s
        case Err(e) => r == Err(e) && Current() == old(Current())
    {
      var checked := ValidateHeader(b, now, true);
      if checked.Err? {
        return checked;
      }
      var batch := [PutBlock(b)];
      ghost var start := store.(blocks := store.blocks[b.hash := b]);
      assert Commit(store, batch) == start by {
        CommitOne(store, [], PutBlock(b));
        assert [] + [PutBlock(b)] == batch;
      }
      for i := 0 to |b.txs|
        invariant Commit(store, batch) == start.(txs := PutTxs(start.txs, b.txs[..i]))
        invariant store == old(store) && chainTip == old(chainTip) && difficulty == old(difficulty)
      {
        assert b.txs[..i + 1][..i] == b.txs[..i];
        CommitOne(store, batch, PutTx(b.txs[i]));
        batch := batch + [PutTx(b.txs[i])];
      }
      assert b.txs[..|b.txs|] == b.txs;
      store := Commit(store, batch);
      return Ok(());
    }

    // ---- reorganization ----

    method FindCommonAncestor(a: string, b: string) returns (r: Option<string>)
      requires Linked(store.blocks)
      ensures var ca, cb := Chain(store.blocks, a), Chain(store.blocks, b);
        var n := CommonLength(ca, cb);
        match r
        case None => n == 0
        case Some(x) => n > 0 && x == ca[n - 1].hash
    {
      var seen := CollectHashes(a);
      var current := b;
      while current in store.blocks
        invariant Chain(store.blocks, current) <= Chain(store.blocks, b)
        invariant forall j :: |Chain(store.blocks, current)| <= j < |Chain(store.blocks, b)| ==>
          Chain(store.blocks, b)[j].hash !in seen
        decreases Height(store.blocks, current)
      {
        WalkDown(store.blocks, current);
        if current in seen {
          AncestorFound(store.blocks, a, b, current, seen);
          return Some(current);
        }
        if store.blocks[current].header.index == 0 {
          NoAncestor(store.blocks, a, b, seen);
          return None;
        }
        current := store.blocks[current].header.previous;
      }
      ChainEntries(store.blocks, current);
      NoAncestor(store.blocks, a, b, seen);
      return None;
    }

    /** The hashes on the path of h, newest first. */
    method CollectHashes(h: string) returns (seen: seq<string>)
      requires Linked(store.blocks)
      ensures forall x :: x in seen <==> OnPath(store.blocks, h, x)
    {
      seen := [];
      var current := h;
      while current in store.blocks
        invariant Chain(store.blocks, current) <= Chain(store.blocks, h)
        invariant |seen| + |Chain(store.blocks, current)| == |Chain(store.blocks, h)|
        invariant forall k :: 0 <= k < |seen| ==>
          seen[k] == Chain(store.blocks, h)[|Chain(store.blocks, h)| - 1 - k].hash
        decreases Height(store.blocks, current)
      {
        WalkDown(store.blocks, current);
        seen := seen + [current];
        if store.blocks[current].header.index == 0 {
          CollectedAll(Chain(store.blocks, h), seen);
          return;
        }
        current := store.blocks[current].header.previous;
      }
      ChainEntries(store.blocks, current);
      CollectedAll(Chain(store.blocks, h), seen);
    }

    /** The blocks from h down to, not including, its ancestor at position n - 1 of its path; newest first. */
    method CollectAbove(h: string, ancestor: string, ghost n: nat) returns (above: seq<Block>)
      requires Linked(store.blocks)
      requires 0 < n <= |Chain(store.blocks, h)| && Chain(store.blocks, h)[n - 1].hash == ancestor
      ensures above == Reversed(Chain(store.blocks, h)[n..])
    {
      above := [];
      var current := h;
      while current != ancestor
        invariant n <= |Chain(store.blocks, current)| && Chain(store.blocks, current) <= Chain(store.blocks, h)
        invariant |above| + |Chain(store.blocks, current)| == |Chain(store.blocks, h)|
        invariant forall k :: 0 <= k < |above| ==> above[k] == Chain(store.blocks, h)[|Chain(store.blocks, h)| - 1 - k]
        decreases Height(store.blocks, current)
      {
        NotYet(store.blocks, h, current, n);
        above := above + [store.blocks[current]];
        current := store.blocks[current].header.previous;
      }
      Arrived(store.blocks, h, current, n);
    }

    /** Undo the effects of blocks given newest first, in one batch read against the committed store. */
    method RollbackBlocks(blocks: seq<Block>) returns (r: Result<()>)
      modifies this`store
      ensures CanUndo(old(store).txs, blocks) ==> r.Ok? && store == UndoBlocks(old(store).txs, old(store), blocks)
      ensures !CanUndo(old(store).txs, blocks) ==> r == Err(SpentTxMissing) && store == old(store)
    {
      var batch := [];
      for i := 0 to |blocks|
        invariant store == old(store)
        invariant CanUndo(store.txs, blocks[..i])
        invariant Commit(store, batch) == UndoBlocks(store.txs, store, blocks[..i])
      {
        UndoNext(store.txs, store, blocks, i);
        CanUndoNext(store.txs, blocks, i);
        var ok, batch' := QueueUndoBlock(store.txs, store, batch, blocks[i]);
        if !ok {
          return Err(SpentTxMissing);
        }
        batch := batch';
      }
      assert blocks[..|blocks|] == blocks;
      store := Commit(store, batch);
      return Ok(());
    }

    /** Apply blocks oldest first, one batch each. */
    method ReplayAll(blocks: seq<Block>)
      modifies this`store
      ensures store == ReplayBlocks(old(store), blocks)
    {
      for i := 0 to |blocks|
        invariant store == ReplayBlocks(old(store), blocks[..i])
      {
        assert blocks[..i + 1][..i] == blocks[..i];
        var batch := QueueReplayBlock(store, blocks[i]);
        store := Commit(store, batch);
      }
      assert blocks[..|blocks|] == blocks;
    }

    /** Move the tip to a stored block of greatest height. */
    method RecoverTip() returns (r: Result<()>)
      modifies this`store, this`chainTip
      ensures r.Ok? <==> old(store).blocks != map[]
      ensures if r.Ok? then Recovered(old(Current()), Current()) else Current() == old(Current())
      ensures r.Ok? ==> chainTip.Some? && chainTip.value in store.blocks
      ensures r.Ok? ==> forall h :: h in store.blocks ==>
        store.blocks[h].header.index <= store.blocks[chainTip.value].header.index
    {
      var best: Option<string> := None;
      var rest := store.blocks.Keys;
      while rest != {}
        invariant rest <= store.blocks.Keys
        invariant best.None? ==> rest == store.blocks.Keys
        invariant best.Some? ==> best.value in store.blocks
        invariant best.Some? ==> forall h :: h in store.blocks && h !in rest ==>
          store.blocks[h].header.index <= store.blocks[best.value].header.index
        decreases |rest|
      {
        var h :| h in rest;
        if best.None? || store.blocks[h].header.index > store.blocks[best.value].header.index {
          best := Some(h);
        }
        rest := rest - {h};
      }
      if best.None? {
        return Err(UnknownBlock);
      }
      store := store.(tip := best);
      chainTip := best;
      return Ok(());
    }

    method ReorganizeIfNeeded(h: string) returns (r: Result<bool>)
      requires Linked(store.blocks)
      modifies this
      ensures !Stale(old(Current())) ==>
        match Reorganize(params, old(Current()), h)
        case Ok(out) => r == Ok(out.moved) && Current() == out.state
        case Err(e) => r == Err(e) && Current() == old(Current())
      ensures Stale(old(Current())) ==>
        r == (if h in old(store).blocks then Ok(false) else Err(UnknownBlock)) && Recovered(old(Current()), Current())
      ensures forall naming: string -> Tx :: Adoptable(env, naming, params, old(Current()), h) ==>
        r == Ok(true) && Linked(store.blocks) && Path(Current()) == Chain(old(store).blocks, h)
    {
      forall naming: string -> Tx | Adoptable(env, naming, params, Current(), h)
        ensures Adopted(params, Current(), h)
      {
        LongerBranchAdopted(env, naming, params, Current(), h);
      }
      if chainTip.None? {
        return Ok(false);
      }
      if chainTip.value !in store.blocks {
        return Err(TipHeaderMissing);
      }
      if |store.blocks| > 100 && store.blocks[chainTip.value].header.index + 1 < |store.blocks| / 2 {
        var recovered := RecoverTip();
      }
      var tip := chainTip.value;
      if h !in store.blocks {
        return Err(UnknownBlock);
      }
      if store.blocks[tip].header.index >= store.blocks[h].header.index {
        return Ok(false);
      }
      r := MoveTip(tip, h);
    }

    /** The part of a reorganization after the new branch has been found to be longer. */
    method MoveTip(tip: string, h: string) returns (r: Result<bool>)
      requires Linked(store.blocks) && chainTip == Some(tip) && tip in store.blocks && h in store.blocks
      requires store.blocks[tip].header.index < store.blocks[h].header.index
      modifies this
      ensures match Reorganize(params, old(Current()), h)
        case Ok(out) => r == Ok(out.moved) && Current() == out.state
        case Err(e) => r == Err(e) && Current() == old(Current())
    {
      var plan := MakePlan(tip, h);
      if plan.Err? {
        return Err(plan.error);
      }
      var undone := RollbackBlocks(plan.value.rollback);
      if undone.Err? {
        return Err(undone.error);
      }
      ReplayAll(plan.value.apply);
      store := store.(tip := Some(h));
      chainTip := Some(h);
      difficulty := plan.value.apply[|plan.value.apply| - 1].header.bits;
      return Ok(true);
    }

    /** Find the fork point, check the depth, and collect the two branches above it. */
    method MakePlan(tip: string, h: string) returns (r: Result<Plan>)
      requires Linked(store.blocks) && tip in store.blocks && h in store.blocks
      requires store.blocks[tip].header.index < store.blocks[h].header.index
      ensures r == PlanOf(params, store.blocks, tip, h)
      ensures r.Ok? ==> r.value.apply != [] && r.value.apply[|r.value.apply| - 1] == store.blocks[h]
    {
      ghost var n := CommonLength(Chain(store.blocks, tip), Chain(store.blocks, h));
      var found := FindCommonAncestor(tip, h);
      if found.None? {
        return Err(NoCommonAncestor);
      }
      var ancestor := found.value;
      ForkPoint(store.blocks, tip, h);
      var depth := store.blocks[tip].header.index - store.blocks[ancestor].header.index;
      if depth > params.maxReorgDepth {
        return Err(ReorgTooDeep);
      }
      var rollback := CollectAbove(tip, ancestor, n);
      var apply := CollectAbove(h, ancestor, n);
      apply := Reversed(apply);
      assert apply == Chain(store.blocks, h)[n..];
      return Ok(Plan(rollback, apply));
    }
  }

  /** Checks 1 to 4 passed. */
  predicate OriginOk(env: Env, p: Params, s: State, b: Block, fork: bool) {
    var h := b.header;
    && env.headerHash(h) == b.hash && CheckpointOk(h.index, b.hash) && ValidPow(env, b.hash, h.bits)
    && (h.index > 0 ==>
          && h.bits == ExpectedBits(p, s, h.index) && h.previous in s.store.blocks
          && (!fork && s.tip.Some? ==> h.previous == s.tip.value))
  }

  lemma {:induction false} WindowIgnoresTip(s: Store, tip: Option<string>, index: nat, n: nat)
    requires n <= index
    ensures WindowBelow(s.(tip := tip), index, n) == WindowBelow(s, index, n)
  {
    if n > 0 {
      WindowIgnoresTip(s, tip, index, n - 1);
    }
  }

  lemma ExpectedIgnoresTip(p: Params, s: State, s': State, index: nat)
    requires Recovered(s, s')
    ensures ExpectedBits(p, s', index) == ExpectedBits(p, s, index)
  {
    if index >= WINDOW {
      WindowIgnoresTip(s.store, s'.tip, index, WINDOW);
    }
  }

  lemma {:induction false} WindowBroken(s: Store, index: nat, i: nat, n: nat)
    requires 0 < i <= n <= index
    requires index - i !in s.index || s.index[index - i] !in s.blocks
    ensures WindowBelow(s, index, n) == None
  {
    if i < n {
      WindowBroken(s, index, i, n - 1);
    }
  }

  /** What the retarget loop has gathered from the headers read so far. */
  datatype Gathered = Gathered(avg: nat, newest: int, oldest: int, previousBits: nat)

  ghost predicate Summarizes(w: seq<Header>, g: Gathered) {
    |w| > 0 && g == Gathered(Average(Targets(w)), w[0].timestamp, w[|w| - 1].timestamp, w[0].bits)
  }

  lemma AverageExtends(w: seq<Header>, h: Header)
    ensures |w| == 0 ==> Average(Targets(w + [h])) == EffectiveTarget(h.bits)
    ensures |w| > 0 ==>
      Average(Targets(w + [h])) == AverageStep(Average(Targets(w)), |w| + 1, EffectiveTarget(h.bits))
  {
    assert Targets(w + [h])[..|w|] == Targets(w);
  }

  lemma NextTargetFits(avg: nat, measured: int, interval: int, prev: nat)
    requires prev < U256_BOUND
    ensures NextTarget(avg, measured, interval, prev) < U256_BOUND
  {
  }

  lemma UndoNext(stored: map<string, Tx>, s: Store, blocks: seq<Block>, i: nat)
    requires i < |blocks|
    ensures UndoBlocks(stored, s, blocks[..i + 1]) == UndoBlock(stored, UndoBlocks(stored, s, blocks[..i]), blocks[i])
  {
    NextPrefix(blocks, i);
  }

  lemma CanUndoNext(stored: map<string, Tx>, blocks: seq<Block>, i: nat)
    requires i < |blocks| && CanUndo(stored, blocks[..i])
    ensures if CanUndoBlock(stored, blocks[i]) then CanUndo(stored, blocks[..i + 1]) else !CanUndo(stored, blocks)
  {
    if CanUndoBlock(stored, blocks[i]) {
      var pre := blocks[..i + 1];
      forall k | 0 <= k < |pre|
        ensures CanUndoBlock(stored, pre[k])
      {
        if k < i {
          assert CanUndoBlock(stored, blocks[..i][k]);
        }
      }
    }
  }

  lemma CommitBlock(s: Store, batch: seq<Op>, b: Block)
    ensures Commit(s, batch + [PutBlock(b)] + [PutIndex(b.header.index, b.hash)] + [PutTip(b.hash)])
      == var t := Commit(s, batch);
         t.(blocks := t.blocks[b.hash := b], index := t.index[b.header.index := b.hash], tip := Some(b.hash))
  {
    CommitOne(s, batch, PutBlock(b));
    CommitOne(s, batch + [PutBlock(b)], PutIndex(b.header.index, b.hash));
    CommitOne(s, batch + [PutBlock(b)] + [PutIndex(b.header.index, b.hash)], PutTip(b.hash));
  }

  lemma TimesNext(blocks: Blocks, h: string, n: nat, times: seq<int>)
    requires h in blocks && n > 0
    ensures var header := blocks[h].header;
      times + TimesBack(blocks, h, n)
      == times + [header.timestamp] + if header.index == 0 then [] else TimesBack(blocks, header.previous, n - 1)
  {
  }

  /** The path of a stored block is its parent's path and the block. */
  lemma WalkDown(blocks: Blocks, h: string)
    requires Linked(blocks) && h in blocks
    ensures var c := Chain(blocks, h);
      && |c| > 0 && c[|c| - 1].hash == h
      && (blocks[h].header.index == 0 ==> |c| == 1)
      && (blocks[h].header.index > 0 ==> Chain(blocks, blocks[h].header.previous) == c[..|c| - 1])
  {
  }

  lemma CollectedAll(c: seq<Block>, seen: seq<string>)
    requires |seen| == |c| && forall k :: 0 <= k < |seen| ==> seen[k] == c[|c| - 1 - k].hash
    ensures forall x :: x in seen <==> exists i :: 0 <= i < |c| && c[i].hash == x
  {
    forall i | 0 <= i < |c|
      ensures c[i].hash in seen
    {
      assert seen[|c| - 1 - i] == c[i].hash;
    }
  }

  lemma AncestorFound(blocks: Blocks, a: string, b: string, x: string, seen: seq<string>)
    requires Linked(blocks) && x in blocks && x in seen && Chain(blocks, x) <= Chain(blocks, b)
    requires forall y :: y in seen <==> OnPath(blocks, a, y)
    requires forall j :: |Chain(blocks, x)| <= j < |Chain(blocks, b)| ==> Chain(blocks, b)[j].hash !in seen
    ensures var n := CommonLength(Chain(blocks, a), Chain(blocks, b));
      n > 0 && Chain(blocks, a)[n - 1].hash == x
  {
    ChainEntries(blocks, x);
    var k := |Chain(blocks, x)| - 1;
    assert Chain(blocks, b)[k].hash == x by {
      WalkDown(blocks, x);
      assert Chain(blocks, b)[k] == Chain(blocks, x)[k];
    }
    assert OnPath(blocks, a, x);
    var i :| 0 <= i < |Chain(blocks, a)| && Chain(blocks, a)[i].hash == x;
    SharedBlock(blocks, a, b, i, k);
    PathSeen(blocks, a, seen);
    LastCommon(Chain(blocks, a), Chain(blocks, b), k, seen);
  }

  lemma PathSeen(blocks: Blocks, a: string, seen: seq<string>)
    requires Linked(blocks) && forall y :: y in seen <==> OnPath(blocks, a, y)
    ensures forall j :: 0 <= j < |Chain(blocks, a)| ==> Chain(blocks, a)[j].hash in seen
  {
    forall j | 0 <= j < |Chain(blocks, a)|
      ensures Chain(blocks, a)[j].hash in seen
    {
      assert OnPath(blocks, a, Chain(blocks, a)[j].hash);
    }
  }

  lemma LastCommon(ca: seq<Block>, cb: seq<Block>, k: nat, seen: seq<string>)
    requires k < CommonLength(ca, cb)
    requires forall i :: 0 <= i < |ca| ==> ca[i].hash in seen
    requires forall j :: k < j < |cb| ==> cb[j].hash !in seen
    ensures CommonLength(ca, cb) == k + 1
  {
    var n := CommonLength(ca, cb);
    PrefixElements(ca, cb, n);
    assert ca[n - 1].hash in seen;
  }

  lemma NoAncestor(blocks: Blocks, a: string, b: string, seen: seq<string>)
    requires Linked(blocks)
    requires forall y :: y in seen <==> OnPath(blocks, a, y)
    requires forall j :: 0 <= j < |Chain(blocks, b)| ==> Chain(blocks, b)[j].hash !in seen
    ensures CommonLength(Chain(blocks, a), Chain(blocks, b)) == 0
  {
    var ca, cb := Chain(blocks, a), Chain(blocks, b);
    var n := CommonLength(ca, cb);
    PrefixElements(ca, cb, n);
    if n > 0 {
      assert OnPath(blocks, a, ca[0].hash);
    }
  }

  lemma NotYet(blocks: Blocks, h: string, current: string, n: nat)
    requires Linked(blocks) && 0 < n <= |Chain(blocks, current)| && Chain(blocks, current) <= Chain(blocks, h)
    requires current != Chain(blocks, h)[n - 1].hash
    ensures current in blocks && blocks[current].header.index > 0
    ensures var c := Chain(blocks, current);
      n < |c| && c[|c| - 1] == blocks[current] && Chain(blocks, blocks[current].header.previous) == c[..|c| - 1]
  {
    ChainEntries(blocks, current);
    WalkDown(blocks, current);
  }

  lemma Arrived(blocks: Blocks, h: string, current: string, n: nat)
    requires Linked(blocks) && 0 < n <= |Chain(blocks, current)| && Chain(blocks, current) <= Chain(blocks, h)
    requires current == Chain(blocks, h)[n - 1].hash
    ensures |Chain(blocks, current)| == n
  {
    ChainPrefix(blocks, h, n - 1);
  }

  /** The fork point is stored, as far below the tip as there are blocks to roll back, and below the new tip. */
  lemma ForkPoint(blocks: Blocks, tip: string, h: string)
    requires Linked(blocks) && tip in blocks && h in blocks
    requires blocks[tip].header.index < blocks[h].header.index
    requires CommonLength(Chain(blocks, tip), Chain(blocks, h)) > 0
    ensures var main, fork := Chain(blocks, tip), Chain(blocks, h);
      var n := CommonLength(main, fork);
      && main[n - 1].hash in blocks && fork[n - 1] == main[n - 1]
      && blocks[tip].header.index - blocks[main[n - 1].hash].header.index == |main| - n
      && n < |fork| && fork[|fork| - 1] == blocks[h]
  {
    var main, fork := Chain(blocks, tip), Chain(blocks, h);
    PrefixElements(main, fork, CommonLength(main, fork));
    ChainEntries(blocks, tip);
    ChainEntries(blocks, h);
    ChainHeights(blocks, tip);
    ChainHeights(blocks, h);
  }
}
