/** Median-time-past along the paths the node builds. */
module Timeline {
  import opened Domain
  import opened MedianTime
  import opened Chains
  import opened Consensus

  function Times(chain: seq<Block>): (ts: seq<int>)
    ensures |ts| == |chain| && forall i :: 0 <= i < |ts| ==> ts[i] == chain[i].header.timestamp
  {
    seq(|chain|, i requires 0 <= i < |chain| => chain[i].header.timestamp)
  }

  /** The last n elements (or all), newest first. */
  function Newest(ts: seq<int>, n: nat): (w: seq<int>)
    ensures |w| == if n < |ts| then n else |ts|
    ensures forall i :: 0 <= i < |w| ==> w[i] == ts[|ts| - 1 - i]
  {
    seq(if n < |ts| then n else |ts|, i requires 0 <= i < |ts| => ts[|ts| - 1 - i])
  }

  lemma NewestStep(ts: seq<int>, t: int, n: nat)
    requires n > 0
    ensures Newest(ts + [t], n) == [t] + Newest(ts, n - 1)
  {
  }

  lemma {:induction false} PredecessorsAreNewest(ts: seq<int>, k: nat)
    requires k <= |ts|
    ensures Predecessors(ts, k) == Newest(ts[..k], SPAN)
  {
    if k > 0 {
      PredecessorsAreNewest(ts, k - 1);
      assert ts[..k] == ts[..k - 1] + [ts[k - 1]];
      NewestStep(ts[..k - 1], ts[k - 1], SPAN);
      ShorterNewest(ts[..k - 1]);
    }
  }

  lemma ShorterNewest(ts: seq<int>)
    ensures Newest(ts, SPAN - 1) == if |Newest(ts, SPAN)| < SPAN then Newest(ts, SPAN) else Newest(ts, SPAN)[..SPAN - 1]
  {
  }

  /** Walking back from a block of a rooted path reads the newest timestamps of that path. */
  lemma {:induction false} TimesBackIsNewest(blocks: Blocks, h: string, n: nat)
    requires Linked(blocks) && Rooted(blocks, h)
    ensures TimesBack(blocks, h, n) == Newest(Times(Chain(blocks, h)), n)
    decreases n
  {
    var c := Chain(blocks, h);
    if n > 0 {
      if blocks[h].header.index == 0 {
        assert c == [blocks[h]];
      } else {
        var parent := blocks[h].header.previous;
        assert Rooted(blocks, parent) by {
          ChainEntries(blocks, parent);
        }
        TimesBackIsNewest(blocks, parent, n - 1);
        NewestStep(Times(Chain(blocks, parent)), blocks[h].header.timestamp, n);
        TimesExtend(Chain(blocks, parent), blocks[h]);
      }
    }
  }

  lemma TimesExtend(chain: seq<Block>, b: Block)
    ensures Times(chain + [b]) == Times(chain) + [b.header.timestamp]
  {
  }

  lemma {:induction false} PredecessorsPrefix(ts: seq<int>, t: int, k: nat)
    requires k <= |ts|
    ensures Predecessors(ts + [t], k) == Predecessors(ts, k)
  {
    if k > 0 {
      PredecessorsPrefix(ts, t, k - 1);
    }
  }

  lemma ObeysExtends(ts: seq<int>, t: int)
    requires ObeysMedianTime(ts) && (ts != [] ==> t > Median(Predecessors(ts, |ts|)))
    ensures ObeysMedianTime(ts + [t])
  {
    var all := ts + [t];
    forall k | 0 < k < |all|
      ensures all[k] > Median(Predecessors(all, k))
    {
      ObeysAt(ts, t, k);
    }
  }

  lemma ObeysAt(ts: seq<int>, t: int, k: nat)
    requires ObeysMedianTime(ts) && (ts != [] ==> t > Median(Predecessors(ts, |ts|))) && 0 < k <= |ts|
    ensures (ts + [t])[k] > Median(Predecessors(ts + [t], k))
  {
    PredecessorsPrefix(ts, t, k);
    var w := Predecessors(ts, k);
    assert k < |ts| ==> ts[k] > Median(w);
  }

  // ---- the rule in numbers ----

  /** On top of a block with one block below it, a block must be later than the mean of the two times. */
  lemma TwoPredecessors(blocks: Blocks, b: Block)
    requires Linked(blocks) && b.header.previous in blocks && Rooted(blocks, b.header.previous)
    requires |Chain(blocks, b.header.previous)| == 2
    ensures var c := Chain(blocks, b.header.previous);
      var sum := c[0].header.timestamp + c[1].header.timestamp;
      MedianTimeOk(blocks, b) <==> b.header.timestamp > if sum >= 0 then sum / 2 else -((-sum) / 2)
  {
    var c := Chain(blocks, b.header.previous);
    TimesBackIsNewest(blocks, b.header.previous, SPAN);
    var x, y := c[0].header.timestamp, c[1].header.timestamp;
    var ts := TimesBack(blocks, b.header.previous, SPAN);
    assert ts == [y, x];
    PairRanks(y, x);
    EvenMedian(ts, if x < y then x else y, if x < y then y else x);
  }

  lemma PairRanks(y: int, x: int)
    ensures HasRank([y, x], if x < y then x else y, 1) && HasRank([y, x], if x < y then y else x, 2)
  {
    forall v
      ensures CountBelow([y, x], v) == (if y < v then 1 else 0) + (if x < v then 1 else 0)
    {
      assert [y, x][..1] == [y] && [y][..0] == [];
    }
  }

  /** From the eleventh block of a path on, a block must be later than the sixth of the last eleven times. */
  lemma ElevenPredecessors(blocks: Blocks, b: Block, m: int)
    requires Linked(blocks) && b.header.previous in blocks && Rooted(blocks, b.header.previous)
    requires |Chain(blocks, b.header.previous)| >= 11
    requires HasRank(Newest(Times(Chain(blocks, b.header.previous)), 11), m, 6)
    ensures MedianTimeOk(blocks, b) <==> b.header.timestamp > m
  {
    TimesBackIsNewest(blocks, b.header.previous, SPAN);
    var ts := TimesBack(blocks, b.header.previous, SPAN);
    OddMedian(ts);
    RankIsPlace(ts, m, 6);
    RankIsPlace(ts, Median(ts), 6);
  }
}
