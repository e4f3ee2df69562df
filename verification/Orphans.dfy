/** Blocks whose parent is not known yet: the bounded pool they wait in, and retrying them. */
module Orphans {
  import opened Domain
  import opened Chains
  import opened Storage
  import opened TxRules
  import opened Consensus
  import opened Runs
  import opened Node

  const MAX_ORPHANS: nat := 100
  const MAX_PASSES: nat := 100
  const HEIGHT_GAP: nat := 1000
  const TIMEOUT: int := 1800
  const OLD_AGE: int := 3600

  datatype Orphan = Orphan(block: Block, since: int)

  type Pool = map<string, Orphan>

  // ---- insertion into the pool ----

  function Near(m: Pool, height: nat): (r: Pool) {
    map h | h in m && m[h].block.header.index <= height + HEIGHT_GAP :: m[h]
  }

  function Younger(m: Pool, now: int): (r: Pool) {
    map h | h in m && now - m[h].since < TIMEOUT :: m[h]
  }

  function NotOld(m: Pool, now: int): (r: Pool) {
    map h | h in m && now - m[h].since <= OLD_AGE :: m[h]
  }

  ghost predicate Within(m': Pool, m: Pool) {
    forall h :: h in m' ==> h in m && m'[h] == m[h]
  }

  lemma WithinSmaller(m': Pool, m: Pool)
    requires Within(m', m)
    ensures |m'| <= |m|
  {
    SubsetSmaller(m'.Keys, m.Keys);
    assert |m'| == |m'.Keys| && |m| == |m.Keys|;
  }

  lemma {:induction false} SubsetSmaller(a: set<string>, b: set<string>)
    requires a <= b
    ensures |a| <= |b|
    decreases b
  {
    if a != {} {
      var x :| x in a;
      SubsetSmaller(a - {x}, b - {x});
    }
  }

  /** The n highest orphans are gone: nothing that stayed is higher than anything that went. */
  ghost predicate HighestRemoved(m: Pool, m': Pool, n: nat) {
    && Within(m', m) && |m'| + n == |m|
    && forall x, y :: x in m && x !in m' && y in m' ==> m'[y].block.header.index <= m[x].block.header.index
  }

  /** Make room: a full pool loses a quarter of its limit. */
  ghost predicate Thinned(m: Pool, m': Pool) {
    if |m| >= MAX_ORPHANS then HighestRemoved(m, m', MAX_ORPHANS / 4) else m' == m
  }

  /** What storing an orphan may do to the pool; ties among the highest are broken by the hash map's order. */
  ghost predicate Stored(m: Pool, m': Pool, b: Block, height: nat, now: int) {
    if b.header.index > height + HEIGHT_GAP then m' == m
    else exists thin :: Thinned(Near(m, height), thin) && m' == Younger(thin, now)[b.hash := Orphan(b, now)]
  }

  lemma StoredWithinLimit(m: Pool, m': Pool, b: Block, height: nat, now: int)
    requires Stored(m, m', b, height, now) && |m| <= MAX_ORPHANS
    ensures |m'| <= MAX_ORPHANS
  {
    if b.header.index <= height + HEIGHT_GAP {
      var thin :| Thinned(Near(m, height), thin) && m' == Younger(thin, now)[b.hash := Orphan(b, now)];
      WithinSmaller(Near(m, height), m);
      WithinSmaller(Younger(thin, now), thin);
      OneMore(Younger(thin, now), b.hash, Orphan(b, now));
    }
  }

  lemma OneMore(m: Pool, h: string, o: Orphan)
    ensures |m[h := o]| <= |m| + 1
  {
    assert m[h := o].Keys == m.Keys + {h};
    assert |m[h := o].Keys| <= |m.Keys| + 1;
  }

  /** Storing an orphan keeps of the others only those at most 1000 above the chain and younger than half an hour, and
      all of these unless 100 or more are at most 1000 above it; then 25 of the highest go first. */
  lemma StoredSurvivors(m: Pool, m': Pool, b: Block, height: nat, now: int, h: string)
    requires Stored(m, m', b, height, now) && b.header.index <= height + 1000 && h != b.hash
    ensures b.hash in m' && m'[b.hash] == Orphan(b, now)
    ensures h in m' ==> h in m && m'[h] == m[h]
    ensures h in m' ==> m[h].block.header.index <= height + 1000 && now - m[h].since < 1800
    ensures |Near(m, height)| < 100 && h in m && m[h].block.header.index <= height + 1000 && now - m[h].since < 1800
      ==> h in m'
    ensures |Near(m, height)| >= 100 ==> |m'| <= |Near(m, height)| - 24
    ensures |Near(m, height)| >= 100 && (forall x :: x in m ==> now - m[x].since < 1800) ==>
      |m'| >= |Near(m, height)| - 25
  {
    var thin :| Thinned(Near(m, height), thin) && m' == Younger(thin, now)[b.hash := Orphan(b, now)];
    WithinSmaller(Younger(thin, now), thin);
    OneMore(Younger(thin, now), b.hash, Orphan(b, now));
    if forall x :: x in m ==> now - m[x].since < 1800 {
      assert |Near(m, height)| >= 100 ==> Younger(thin, now) == thin;
      SubsetSmaller(Younger(thin, now).Keys, m'.Keys);
    }
  }

  /** A block more than 1000 above the chain is not kept. */
  lemma TooHighIsDropped(m: Pool, m': Pool, b: Block, height: nat, now: int)
    requires Stored(m, m', b, height, now) && b.header.index > height + 1000
    ensures m' == m
  {
  }

  /** Every orphan sits under its own block's hash. */
  ghost predicate Keyed(m: Pool) {
    forall h :: h in m ==> m[h].block.hash == h
  }

  /** A step stores an orphan or only takes some away. */
  ghost predicate PoolStep(m: Pool, m': Pool) {
    Within(m', m) || exists b, height: nat, now :: Stored(m, m', b, height, now)
  }

  ghost predicate IsPoolRun(pools: seq<Pool>) {
    && |pools| > 0 && pools[0] == map[]
    && forall k :: 0 <= k < |pools| - 1 ==> PoolStep(pools[k], pools[k + 1])
  }

  /** The pool never outgrows its limit. */
  lemma {:induction false} RunWithinLimit(pools: seq<Pool>, k: nat)
    requires IsPoolRun(pools) && k < |pools|
    ensures |pools[k]| <= 100 && Keyed(pools[k])
  {
    if k > 0 {
      RunWithinLimit(pools, k - 1);
      var m, m' := pools[k - 1], pools[k];
      assert PoolStep(pools[k - 1], pools[k - 1 + 1]);
      if Within(m', m) {
        WithinSmaller(m', m);
      } else {
        var b, height: nat, now :| Stored(m, m', b, height, now);
        StoredWithinLimit(m, m', b, height, now);
        StoredKeyed(m, m', b, height, now);
      }
    }
  }

  lemma StoredKeyed(m: Pool, m': Pool, b: Block, height: nat, now: int)
    requires Stored(m, m', b, height, now) && Keyed(m)
    ensures Keyed(m')
  {
  }

  // ---- what retrying needs of the chain ----

  ghost predicate Sound(env: Env, naming: string -> Tx, s: State) {
    BlocksStored(env, naming, s.store.blocks) && (s.tip.Some? ==> s.tip.value in s.store.blocks)
  }

  lemma InsertSound(env: Env, naming: string -> Tx, p: Params, s: State, b: Block, now: int)
    requires Sound(env, naming, s) && WellNamed(env, naming, b) && Insert(env, p, s, b, now).Ok?
    ensures Sound(env, naming, Insert(env, p, s, b, now).value)
    ensures b.hash in Insert(env, p, s, b, now).value.store.blocks
  {
    if b.hash !in s.store.blocks {
      assert BlockStored(env, naming, b.hash, b);
      StoreOne(env, naming, s.store.blocks, b);
    }
  }

  lemma ReorganizeSound(env: Env, naming: string -> Tx, p: Params, s: State, h: string)
    requires Sound(env, naming, s) && Linked(s.store.blocks) && Reorganize(p, s, h).Ok?
    ensures Sound(env, naming, Reorganize(p, s, h).value.state)
  {
    if Reorganize(p, s, h).value.moved {
      MovedSound(env, naming, s, h, PlanOf(p, s.store.blocks, s.tip.value, h).value);
    }
  }

  lemma MovedSound(env: Env, naming: string -> Tx, s: State, h: string, plan: Plan)
    requires Sound(env, naming, s) && Linked(s.store.blocks) && s.tip.Some? && h in s.store.blocks
    requires plan.rollback == Gone(s.store.blocks, s.tip.value, h)
    ensures Sound(env, naming, Moved(s, plan, h, s.store.blocks[h].header.bits))
  {
    var blocks := s.store.blocks;
    var undone := UndoBlocks(s.store.txs, s.store, plan.rollback);
    UndoRemoves(s.store.txs, s.store, plan.rollback);
    ReplayKeepsRest(undone, plan.apply);
    StillStored(env, naming, blocks, undone.blocks);
    TipSurvives(blocks, undone.blocks, s.tip.value, h, plan.rollback);
  }

  lemma TipSurvives(blocks: Blocks, fewer: Blocks, tip: string, h: string, gone: seq<Block>)
    requires Linked(blocks) && h in blocks && gone == Gone(blocks, tip, h) && fewer == blocks - HashesOf(gone)
    ensures h in fewer
  {
    ChainEntries(blocks, h);
    NoneGone(blocks, tip, h, |Chain(blocks, h)| - 1);
    Survives(blocks, gone, fewer, blocks[h]);
  }

  /** A block that was really inserted is the tip, so the reorganization that follows finds nothing to do. */
  lemma InsertedNeedsNoReorganization(env: Env, p: Params, s: State, b: Block, now: int)
    requires b.hash !in s.store.blocks && Insert(env, p, s, b, now).Ok?
    requires Linked(Insert(env, p, s, b, now).value.store.blocks)
    ensures var s' := Insert(env, p, s, b, now).value; Reorganize(p, s', b.hash) == Ok(Reorg(false, s'))
  {
  }

  /** The orphan cannot be inserted: no parent, or refused. */
  predicate Stuck(env: Env, p: Params, s: State, b: Block, now: int) {
    b.header.previous !in s.store.blocks || Insert(env, p, s, b, now).Err?
  }

  /** Every waiting orphan, except the ones still to be tried, was found stuck in this very state. */
  ghost predicate Settled(env: Env, p: Params, s: State, m: Pool, rest: set<string>, clock: nat -> int) {
    forall h :: h in m && h !in rest ==> exists n: nat :: Stuck(env, p, s, m[h].block, clock(n))
  }

  /** Halfway through a pass: some orphan has left, or all tried so far are stuck. */
  ghost predicate Advancing(env: Env, p: Params, s: State, m: Pool, start: Pool, rest: set<string>, any: bool,
                            clock: nat -> int)
  {
    Within(m, start) && if any then |m| < |start| else Settled(env, p, s, m, rest, clock)
  }

  lemma AdvancingNext(env: Env, p: Params, s: State, s': State, m: Pool, m': Pool, start: Pool, rest: set<string>,
                      any: bool, clock: nat -> int, h: string, n: nat, done: bool)
    requires Advancing(env, p, s, m, start, rest, any, clock) && h in m
    requires if done then m' == m - {h} else m' == m && s' == s && Stuck(env, p, s, m[h].block, clock(n))
    ensures Advancing(env, p, s', m', start, rest - {h}, any || done, clock)
  {
    if done {
      WithinSmaller(m, start);
      assert m'.Keys == m.Keys - {h};
    }
  }

  // ---- the record of successful retries ----

  /** What the check for a reorganization may leave behind. */
  ghost predicate Reorganized(p: Params, s: State, h: string, s': State)
    requires Linked(s.store.blocks)
  {
    if Stale(s) then Recovered(s, s')
    else
      match Reorganize(p, s, h)
      case Ok(out) => s' == out.state
      case Err(_) => s' == s
  }

  /** The block was accepted in s, and after the reorganization check the state is s'. */
  ghost predicate Retried(env: Env, p: Params, s: State, b: Block, now: int, s': State) {
    && b.header.previous in s.store.blocks && Insert(env, p, s, b, now).Ok?
    && Linked(Insert(env, p, s, b, now).value.store.blocks)
    && Reorganized(p, Insert(env, p, s, b, now).value, b.hash, s')
  }

  datatype Success = Success(hash: string, after: State)

  function Final(s: State, run: seq<Success>): (s': State) {
    if run == [] then s else run[|run| - 1].after
  }

  function Accepted(run: seq<Success>): (hs: set<string>) {
    set i | 0 <= i < |run| :: run[i].hash
  }

  /** From pool m and state s, the orphans in the run were accepted one after the other. */
  ghost predicate IsRun(env: Env, p: Params, m: Pool, s: State, run: seq<Success>, clock: nat -> int) {
    run == []
    || var front, last := run[..|run| - 1], run[|run| - 1];
       && IsRun(env, p, m, s, front, clock)
       && last.hash in m && last.hash !in Accepted(front)
       && exists n: nat :: Retried(env, p, Final(s, front), m[last.hash].block, clock(n), last.after)
  }

  /** The pool and the state are what the run has made of m and s. */
  ghost predicate Follows(env: Env, p: Params, m: Pool, s: State, run: seq<Success>, clock: nat -> int, m': Pool,
                          s': State)
  {
    IsRun(env, p, m, s, run, clock) && m' == m - Accepted(run) && s' == Final(s, run)
  }

  lemma FollowsNext(env: Env, p: Params, m: Pool, s: State, run: seq<Success>, clock: nat -> int, m': Pool, s': State,
                    h: string, n: nat, after: State)
    requires Follows(env, p, m, s, run, clock, m', s') && h in m' && Retried(env, p, s', m'[h].block, clock(n), after)
    ensures Follows(env, p, m, s, run + [Success(h, after)], clock, m' - {h}, after)
  {
    var run' := run + [Success(h, after)];
    assert run'[..|run'| - 1] == run;
    AcceptedNext(run, Success(h, after));
    assert m - Accepted(run') == m' - {h};
  }

  lemma AcceptedNext(run: seq<Success>, last: Success)
    ensures Accepted(run + [last]) == Accepted(run) + {last.hash}
  {
    var run' := run + [last];
    assert run'[|run|] == last;
    assert forall i :: 0 <= i < |run| ==> run'[i] == run[i];
  }

  ghost predicate AllWellNamed(env: Env, naming: string -> Tx, m: Pool) {
    forall h :: h in m ==> WellNamed(env, naming, m[h].block)
  }

  /** What retrying needs and keeps. */
  ghost predicate Ready(env: Env, naming: string -> Tx, m: Pool, s: State) {
    Keyed(m) && AllWellNamed(env, naming, m) && Sound(env, naming, s)
  }

  /** Where a pass stands: `rest` is still to be tried, the others have left or were found stuck. */
  ghost predicate InPass(env: Env, p: Params, naming: string -> Tx, orphans: Pool, now: State, m: Pool, s: State,
                         run: seq<Success>, start: Pool, rest: set<string>, any: bool, clock: nat -> int)
  {
    && rest <= orphans.Keys && Ready(env, naming, orphans, now)
    && Follows(env, p, m, s, run, clock, orphans, now)
    && Advancing(env, p, now, orphans, start, rest, any, clock)
  }

  class OrphanPool {
    var orphans: Pool

    constructor ()
      ensures orphans == map[]
    {
      orphans := map[];
    }

    /** Keep a block whose parent is missing. */
    method Store(b: Block, height: nat, now: int)
      modifies this
      ensures Stored(old(orphans), orphans, b, height, now)
      ensures |old(orphans)| <= MAX_ORPHANS ==> |orphans| <= MAX_ORPHANS
    {
      if b.header.index > height + HEIGHT_GAP {
        return;
      }
      orphans := Near(orphans, height);
      if |orphans| >= MAX_ORPHANS {
        RemoveHighest(MAX_ORPHANS / 4);
      }
      ghost var thin := orphans;
      orphans := Younger(orphans, now)[b.hash := Orphan(b, now)];
      assert Thinned(Near(old(orphans), height), thin);
      if |old(orphans)| <= MAX_ORPHANS {
        StoredWithinLimit(old(orphans), orphans, b, height, now);
      }
    }

    /** Highest first, n of them. */
    method RemoveHighest(n: nat)
      requires n <= |orphans|
      modifies this
      ensures HighestRemoved(old(orphans), orphans, n)
    {
      for i := 0 to n
        invariant HighestRemoved(old(orphans), orphans, i)
      {
        var top := Highest();
        OneFewer(old(orphans), orphans, i, top);
        orphans := orphans - {top};
      }
    }

    method Highest() returns (top: string)
      requires |orphans| > 0
      ensures top in orphans
      ensures forall h :: h in orphans ==> orphans[h].block.header.index <= orphans[top].block.header.index
    {
      var rest := orphans.Keys;
      assert rest != {};
      top :| top in rest;
      while rest != {}
        invariant rest <= orphans.Keys && top in orphans
        invariant forall h :: h in orphans && h !in rest ==>
          orphans[h].block.header.index <= orphans[top].block.header.index
        decreases |rest|
      {
        var h :| h in rest;
        if orphans[h].block.header.index > orphans[top].block.header.index {
          top := h;
        }
        rest := rest - {h};
      }
    }

    /** Retry one orphan. */
    method Retry(bc: Blockchain, h: string, now: int, ghost naming: string -> Tx) returns (done: bool)
      requires h in orphans && Ready(bc.env, naming, orphans, bc.Current())
      modifies this, bc
      ensures Sound(bc.env, naming, bc.Current())
      ensures done <==> !Stuck(bc.env, bc.params, old(bc.Current()), old(orphans)[h].block, now)
      ensures done ==> orphans == old(orphans) - {h}
      ensures done ==> Retried(bc.env, bc.params, old(bc.Current()), old(orphans)[h].block, now, bc.Current())
      ensures !done ==> orphans == old(orphans) && bc.Current() == old(bc.Current())
    {
      var b := orphans[h].block;
      if b.header.previous !in bc.store.blocks {
        return false;
      }
      ghost var before := bc.Current();
      ghost var from;
      var r;
      r, from := bc.ValidateAndInsertBlock(b, now);
      if r.Err? {
        return false;
      }
      InsertSound(bc.env, naming, bc.params, before, b, now);
      StoredIsLinked(bc.env, naming, bc.store.blocks);
      orphans := orphans - {h};
      CheckReorganization(bc, h, naming);
      return true;
    }

    /** The check for a reorganization after a successful retry; its result is ignored. */
    method CheckReorganization(bc: Blockchain, h: string, ghost naming: string -> Tx)
      requires Sound(bc.env, naming, bc.Current()) && Linked(bc.store.blocks)
      modifies bc
      ensures Sound(bc.env, naming, bc.Current())
      ensures Reorganized(bc.params, old(bc.Current()), h, bc.Current())
    {
      ghost var s := bc.Current();
      var _ := bc.ReorganizeIfNeeded(h);
      if !Stale(s) && Reorganize(bc.params, s, h).Ok? {
        ReorganizeSound(bc.env, naming, bc.params, s, h);
      }
    }

    /** Retry one orphan of a pass and note a success in the run. */
    method RetryAndNote(bc: Blockchain, h: string, clock: nat -> int, tick: nat, any: bool,
                        ghost naming: string -> Tx, ghost m: Pool, ghost s: State, ghost run: seq<Success>,
                        ghost start: Pool, ghost rest: set<string>)
      returns (any': bool, ghost run': seq<Success>)
      requires InPass(bc.env, bc.params, naming, orphans, bc.Current(), m, s, run, start, rest, any, clock) && h in rest
      modifies this, bc
      ensures InPass(bc.env, bc.params, naming, orphans, bc.Current(), m, s, run', start, rest - {h}, any', clock)
    {
      any', run' := any, run;
      var done := Retry(bc, h, clock(tick), naming);
      AdvancingNext(bc.env, bc.params, old(bc.Current()), bc.Current(), old(orphans), orphans, start, rest, any, clock,
                    h, tick, done);
      if done {
        any' := true;
        FollowsNext(bc.env, bc.params, m, s, run, clock, old(orphans), old(bc.Current()), h, tick, bc.Current());
        run' := run + [Success(h, bc.Current())];
      }
    }

    /** One pass over a snapshot of the pool. */
    method Pass(bc: Blockchain, clock: nat -> int, tick: nat, ghost naming: string -> Tx,
                ghost m: Pool, ghost s: State, ghost run: seq<Success>)
      returns (any: bool, tick': nat, ghost run': seq<Success>)
      requires Ready(bc.env, naming, orphans, bc.Current())
      requires Follows(bc.env, bc.params, m, s, run, clock, orphans, bc.Current())
      modifies this, bc
      ensures Ready(bc.env, naming, orphans, bc.Current())
      ensures Follows(bc.env, bc.params, m, s, run', clock, orphans, bc.Current())
      ensures Advancing(bc.env, bc.params, bc.Current(), orphans, old(orphans), {}, any, clock)
    {
      any, tick', run' := false, tick, run;
      var rest := orphans.Keys;
      while rest != {}
        invariant InPass(bc.env, bc.params, naming, orphans, bc.Current(), m, s, run', old(orphans), rest, any, clock)
        decreases |rest|
      {
        var h :| h in rest;
        any, run' := RetryAndNote(bc, h, clock, tick', any, naming, m, s, run', old(orphans), rest);
        tick' := tick' + 1;
        rest := rest - {h};
      }
    }

    /** Retry until a pass changes nothing, then forget what has waited too long. The pass limit is never what
        stops it: the pool holds no more orphans than there are passes. An orphan leaves only by being accepted
        or for its age. */
    method ProcessOrphanBlocks(bc: Blockchain, clock: nat -> int, now: int, ghost naming: string -> Tx)
      returns (ghost run: seq<Success>)
      requires |orphans| <= MAX_ORPHANS && Keyed(orphans) && AllWellNamed(bc.env, naming, orphans)
      requires Sound(bc.env, naming, bc.Current())
      modifies this, bc
      ensures Sound(bc.env, naming, bc.Current())
      ensures IsRun(bc.env, bc.params, old(orphans), old(bc.Current()), run, clock)
      ensures bc.Current() == Final(old(bc.Current()), run)
      ensures orphans == NotOld(old(orphans) - Accepted(run), now)
      ensures forall h :: h in orphans <==>
        h in old(orphans) && h !in Accepted(run) && now - old(orphans)[h].since <= 3600
      ensures Settled(bc.env, bc.params, bc.Current(), orphans, {}, clock)
    {
      run := [];
      var any, iterations, tick := true, 0, 0;
      assert orphans - Accepted([]) == orphans;
      while any && iterations < MAX_PASSES
        invariant Ready(bc.env, naming, orphans, bc.Current())
        invariant Follows(bc.env, bc.params, old(orphans), old(bc.Current()), run, clock, orphans, bc.Current())
        invariant any ==> |orphans| + iterations <= |old(orphans)|
        invariant !any ==> Settled(bc.env, bc.params, bc.Current(), orphans, {}, clock)
        decreases MAX_PASSES - iterations
      {
        any, tick, run := Pass(bc, clock, tick, naming, old(orphans), old(bc.Current()), run);
        iterations := iterations + 1;
      }
      assert Settled(bc.env, bc.params, bc.Current(), orphans, {}, clock) by {
        if any {
          assert |orphans| == 0;
        }
      }
      orphans := NotOld(orphans, now);
      WhoStays(old(orphans), Accepted(run), now);
    }
  }

  lemma WhoStays(m: Pool, gone: set<string>, now: int)
    ensures forall h :: h in NotOld(m - gone, now) <==> h in m && h !in gone && now - m[h].since <= 3600
  {
  }

  lemma OneFewer(start: Pool, m: Pool, n: nat, top: string)
    requires HighestRemoved(start, m, n) && top in m
    requires forall h :: h in m ==> m[h].block.header.index <= m[top].block.header.index
    ensures HighestRemoved(start, m - {top}, n + 1)
  {
    assert (m - {top}).Keys == m.Keys - {top};
  }
}
