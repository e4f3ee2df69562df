/** Parent paths through the stored blocks, and where two of them part. */
module Chains {
  import opened Domain

  type Blocks = map<string, Block>

  /** Blocks are stored under their own hash, and a stored parent is one below its child. */
  ghost predicate Linked(blocks: Blocks) {
    && (forall h :: h in blocks ==> blocks[h].hash == h)
    && (forall h :: h in blocks && blocks[h].header.index > 0 && blocks[h].header.previous in blocks ==>
          blocks[h].header.index == blocks[blocks[h].header.previous].header.index + 1)
  }

  function Height(blocks: Blocks, h: string): (n: nat) {
    if h in blocks then blocks[h].header.index + 1 else 0
  }

  /** The stored ancestors of h, oldest first, ending in h itself. */
  ghost function Chain(blocks: Blocks, h: string): (c: seq<Block>)
    requires Linked(blocks)
    decreases Height(blocks, h)
  {
    if h !in blocks then []
    else if blocks[h].header.index == 0 then [blocks[h]]
    else Chain(blocks, blocks[h].header.previous) + [blocks[h]]
  }

  lemma {:induction false} ChainEntries(blocks: Blocks, h: string)
    requires Linked(blocks)
    ensures forall i :: 0 <= i < |Chain(blocks, h)| ==>
      Chain(blocks, h)[i].hash in blocks && blocks[Chain(blocks, h)[i].hash] == Chain(blocks, h)[i]
    ensures h in blocks <==> Chain(blocks, h) != []
    ensures h in blocks ==> Chain(blocks, h)[|Chain(blocks, h)| - 1] == blocks[h]
    decreases Height(blocks, h)
  {
    if h in blocks && blocks[h].header.index != 0 {
      ChainEntries(blocks, blocks[h].header.previous);
    }
  }

  /** Cutting a path at any of its blocks gives that block's own path. */
  lemma {:induction false} ChainPrefix(blocks: Blocks, h: string, i: nat)
    requires Linked(blocks) && i < |Chain(blocks, h)|
    ensures Chain(blocks, Chain(blocks, h)[i].hash) == Chain(blocks, h)[..i + 1]
    decreases Height(blocks, h)
  {
    var c := Chain(blocks, h);
    ChainEntries(blocks, h);
    if i == |c| - 1 {
      assert c[..i + 1] == c;
    } else {
      var parent := blocks[h].header.previous;
      ChainPrefix(blocks, parent, i);
      assert c[..i + 1] == Chain(blocks, parent)[..i + 1];
    }
  }

  /** Heights go up by one along a path. */
  lemma {:induction false} ChainHeights(blocks: Blocks, h: string)
    requires Linked(blocks) && h in blocks
    ensures forall i :: 0 <= i < |Chain(blocks, h)| ==>
      Chain(blocks, h)[i].header.index + |Chain(blocks, h)| == blocks[h].header.index + i + 1
    decreases Height(blocks, h)
  {
    if blocks[h].header.index != 0 && blocks[h].header.previous in blocks {
      ChainHeights(blocks, blocks[h].header.previous);
    }
  }

  /** The path goes all the way down to a block of height 0. */
  ghost predicate Rooted(blocks: Blocks, h: string)
    requires Linked(blocks)
  {
    h in blocks && |Chain(blocks, h)| == blocks[h].header.index + 1
  }

  lemma RootedHeights(blocks: Blocks, h: string)
    requires Linked(blocks) && Rooted(blocks, h)
    ensures forall i :: 0 <= i < |Chain(blocks, h)| ==> Chain(blocks, h)[i].header.index == i
  {
    ChainHeights(blocks, h);
  }

  /** A rooted path depends on nothing but its own blocks. */
  lemma {:induction false} ChainFrame(blocks: Blocks, blocks': Blocks, h: string)
    requires Linked(blocks) && Linked(blocks') && Rooted(blocks, h)
    requires forall i :: 0 <= i < |Chain(blocks, h)| ==>
      Chain(blocks, h)[i].hash in blocks' && blocks'[Chain(blocks, h)[i].hash] == Chain(blocks, h)[i]
    ensures Rooted(blocks', h) && Chain(blocks', h) == Chain(blocks, h)
    decreases Height(blocks, h)
  {
    var c := Chain(blocks, h);
    ChainEntries(blocks, h);
    assert c[|c| - 1] == blocks[h];
    if blocks[h].header.index != 0 {
      var parent := blocks[h].header.previous;
      assert c == Chain(blocks, parent) + [blocks[h]];
      assert parent in blocks;
      forall i | 0 <= i < |Chain(blocks, parent)|
        ensures Chain(blocks, parent)[i] == c[i]
      {
      }
      ChainFrame(blocks, blocks', parent);
    }
  }

  // ---- where two paths part ----

  ghost function CommonLength(a: seq<Block>, b: seq<Block>): (n: nat)
    ensures n <= |a| && n <= |b| && a[..n] == b[..n]
    ensures n < |a| && n < |b| ==> a[n] != b[n]
  {
    if a == [] || b == [] || a[0] != b[0] then 0
    else
      var n := 1 + CommonLength(a[1..], b[1..]);
      assert a[..n] == [a[0]] + a[1..][..n - 1] && b[..n] == [b[0]] + b[1..][..n - 1];
      n
  }

  lemma PrefixElements(a: seq<Block>, b: seq<Block>, n: nat)
    requires n <= |a| && n <= |b| && a[..n] == b[..n]
    ensures forall k :: 0 <= k < n ==> a[k] == b[k]
  {
    assert forall k :: 0 <= k < n ==> a[..n][k] == a[k] && b[..n][k] == b[k];
  }

  ghost predicate OnPath(blocks: Blocks, h: string, x: string)
    requires Linked(blocks)
  {
    exists i :: 0 <= i < |Chain(blocks, h)| && Chain(blocks, h)[i].hash == x
  }

  /** A block on two paths sits at the same position on both, with everything below it shared. */
  lemma SharedBlock(blocks: Blocks, a: string, b: string, i: nat, j: nat)
    requires Linked(blocks) && i < |Chain(blocks, a)| && j < |Chain(blocks, b)|
    requires Chain(blocks, a)[i].hash == Chain(blocks, b)[j].hash
    ensures i == j && Chain(blocks, a)[..i + 1] == Chain(blocks, b)[..i + 1]
    ensures i < CommonLength(Chain(blocks, a), Chain(blocks, b))
  {
    var ca, cb := Chain(blocks, a), Chain(blocks, b);
    ChainPrefix(blocks, a, i);
    ChainPrefix(blocks, b, j);
    assert |ca[..i + 1]| == |cb[..j + 1]|;
    PrefixElements(ca, cb, i + 1);
  }

  /** The shared blocks of two paths are exactly their common prefix. */
  lemma SharedIffCommon(blocks: Blocks, a: string, b: string, x: string)
    requires Linked(blocks)
    ensures OnPath(blocks, a, x) && OnPath(blocks, b, x)
            <==> exists i :: 0 <= i < CommonLength(Chain(blocks, a), Chain(blocks, b)) && Chain(blocks, a)[i].hash == x
  {
    var ca, cb := Chain(blocks, a), Chain(blocks, b);
    var n := CommonLength(ca, cb);
    if OnPath(blocks, a, x) && OnPath(blocks, b, x) {
      var i :| 0 <= i < |ca| && ca[i].hash == x;
      var j :| 0 <= j < |cb| && cb[j].hash == x;
      SharedBlock(blocks, a, b, i, j);
    }
    if i :| 0 <= i < n && ca[i].hash == x {
      assert ca[..n][i] == cb[..n][i];
    }
  }
}
