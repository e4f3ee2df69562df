/** What the node asks of the block after the tip, in terms of the tip's path. */
module Difficulty {
  import opened Domain
  import opened Bytes
  import opened Compact
  import opened Retarget
  import opened Chains
  import opened Consensus
  import opened Runs
  import opened Halting

  lemma EqualTargets(ts: seq<nat>, target: nat)
    requires |ts| == WINDOW && target <= POW_LIMIT && forall i :: 0 <= i < WINDOW ==> ts[i] == target
    ensures Average(ts) == target
  {
    AverageBetween(ts, target, target);
  }

  /** The last 24 blocks of the path all have this target and took this long. */
  ghost predicate Paced(path: seq<Block>, target: nat, elapsed: int) {
    && |path| >= 24 && elapsed == path[|path| - 1].header.timestamp - path[|path| - 24].header.timestamp
    && forall i :: |path| - 24 <= i < |path| ==> Decode(path[i].header.bits) == target
  }

  lemma WindowPace(w: seq<Header>, interval: int, target: nat, elapsed: int)
    requires |w| == WINDOW && elapsed == w[0].timestamp - w[WINDOW - 1].timestamp && 0 < target <= POW_LIMIT
    requires forall i :: 0 <= i < WINDOW ==> Decode(w[i].bits) == target
    ensures NextBits(w, interval) == Encode(NextTarget(target, elapsed, interval, target))
  {
    EqualTargets(Targets(w), target);
  }

  lemma WindowIsPaced(w: seq<Header>, path: seq<Block>, interval: int, target: nat, elapsed: int)
    requires Paced(path, target, elapsed) && |w| == WINDOW && 0 < target <= POW_LIMIT
    requires forall i :: 0 <= i < WINDOW ==> w[i] == path[|path| - 1 - i].header
    ensures NextBits(w, interval) == Encode(NextTarget(target, elapsed, interval, target))
  {
    WindowPace(w, interval, target, elapsed);
  }

  lemma AskedByPace(env: Env, naming: string -> Tx, p: Params, s: State, path: seq<Block>, target: nat, elapsed: int)
    requires Inv(env, naming, s) && Linked(s.store.blocks) && s.tip.Some? && path == Path(s)
    requires Paced(path, target, elapsed) && 0 < target <= POW_LIMIT
    ensures ExpectedBits(p, s, |path|) == Encode(NextTarget(target, elapsed, p.interval, target))
  {
    WindowOfPath(env, naming, s, path, WINDOW);
    WindowIsPaced(WindowBelow(s.store, |path|, WINDOW).value, path, p.interval, target, elapsed);
  }

  /** After 24 blocks of one target the node asks for the same again if they came on time, for three times the target
      if they were three times too slow, and for a third of it if they were three times too fast. */
  lemma PaceOfPath(env: Env, naming: string -> Tx, p: Params, s: State, target: nat, elapsed: int)
    requires Inv(env, naming, s) && Linked(s.store.blocks) && s.tip.Some? && Paced(Path(s), target, elapsed)
    requires p.interval > 0 && target * (72 * p.interval) < U256_BOUND && 3 <= target && 3 * target <= POW_LIMIT
    ensures var asked := ExpectedBits(p, s, |Path(s)|);
      && (elapsed == 24 * p.interval ==> asked == Encode(target))
      && (elapsed >= 72 * p.interval ==> asked == Encode(3 * target))
      && (elapsed <= 8 * p.interval ==> asked == Encode(target / 3))
  {
    AskedByPace(env, naming, p, s, Path(s), target, elapsed);
    PaceDecides(target, elapsed, p.interval, target);
  }

  /** Below height 24 it asks for the target of the tip. */
  lemma NoRetargetYet(p: Params, s: State, index: nat)
    requires index < 24
    ensures ExpectedBits(p, s, index) == s.bits
  {
  }
}
