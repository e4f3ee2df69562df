/** The transaction Merkle root: pair up, duplicating the last leaf of an odd level, until one digest is left. */
module Merkle {

  /** One level up. */
  function Level<T>(hash: (T, T) -> T, xs: seq<T>): (ys: seq<T>)
    ensures |ys| == (|xs| + 1) / 2
    ensures forall i :: 0 <= i < |ys| ==>
      ys[i] == hash(xs[2 * i], if 2 * i + 1 < |xs| then xs[2 * i + 1] else xs[2 * i])
  {
    seq((|xs| + 1) / 2, i requires 0 <= i < (|xs| + 1) / 2 =>
      hash(xs[2 * i], if 2 * i + 1 < |xs| then xs[2 * i + 1] else xs[2 * i]))
  }

  function Root<T>(hash: (T, T) -> T, xs: seq<T>): (r: T)
    requires |xs| > 0
    decreases |xs|
  {
    if |xs| == 1 then xs[0] else Root(hash, Level(hash, xs))
  }

  /** compute_merkle_root: rewrite the list of digests level by level. */
  method ComputeRoot<T>(hash: (T, T) -> T, digests: seq<T>) returns (root: T)
    requires |digests| > 0
    ensures root == Root(hash, digests)
  {
    var leaves := digests;
    while |leaves| > 1
      invariant |leaves| > 0 && Root(hash, leaves) == Root(hash, digests)
      decreases |leaves|
    {
      leaves := NextLevel(hash, leaves);
    }
    root := leaves[0];
  }

  method NextLevel<T>(hash: (T, T) -> T, level: seq<T>) returns (next: seq<T>)
    ensures next == Level(hash, level)
  {
    var leaves := level;
    if |leaves| % 2 == 1 {
      leaves := leaves + [leaves[|leaves| - 1]];
    }
    next := [];
    var i := 0;
    while i < |leaves|
      invariant 0 <= i <= |leaves| && i % 2 == 0 && |next| == i / 2
      invariant forall j :: 0 <= j < |next| ==> next[j] == Level(hash, level)[j]
    {
      next := next + [hash(leaves[i], leaves[i + 1])];
      i := i + 2;
    }
  }

  ghost predicate Injective<T(!new)>(hash: (T, T) -> T) {
    forall a, b, c, d :: hash(a, b) == hash(c, d) ==> a == c && b == d
  }

  lemma LevelInjective<T(!new)>(hash: (T, T) -> T, xs: seq<T>, ys: seq<T>)
    requires Injective(hash) && |xs| == |ys| && Level(hash, xs) == Level(hash, ys)
    ensures xs == ys
  {
    forall j | 0 <= j < |xs|
      ensures xs[j] == ys[j]
    {
      assert Level(hash, xs)[j / 2] == Level(hash, ys)[j / 2];
      assert j == 2 * (j / 2) || j == 2 * (j / 2) + 1;
    }
  }

  /** With a collision-free pair hash the root binds every leaf of a list of known length. */
  lemma {:induction false} RootBinds<T(!new)>(hash: (T, T) -> T, xs: seq<T>, ys: seq<T>)
    requires Injective(hash) && |xs| == |ys| > 0 && Root(hash, xs) == Root(hash, ys)
    ensures xs == ys
    decreases |xs|
  {
    if |xs| > 1 {
      RootBinds(hash, Level(hash, xs), Level(hash, ys));
      LevelInjective(hash, xs, ys);
    }
  }

  /** The length itself is not bound: repeating the last leaf of an odd list keeps the root. */
  lemma RepeatedLastLeaf<T>(hash: (T, T) -> T, xs: seq<T>)
    requires |xs| > 1 && |xs| % 2 == 1
    ensures Root(hash, xs + [xs[|xs| - 1]]) == Root(hash, xs)
  {
    var ys := xs + [xs[|xs| - 1]];
    var n := |Level(hash, xs)|;
    assert |Level(hash, ys)| == n;
    forall i | 0 <= i < n
      ensures Level(hash, ys)[i] == Level(hash, xs)[i]
    {
      assert ys[2 * i] == xs[2 * i];
    }
    assert Level(hash, ys) == Level(hash, xs);
  }

  // ---- exactly what the root binds ----

  /** The number of levels above n leaves. */
  function Depth(n: nat): (d: nat)
    requires n > 0
  {
    if n == 1 then 0 else 1 + Depth((n + 1) / 2)
  }

  function Copies<T>(n: nat, y: T): (xs: seq<T>)
    ensures |xs| == n && forall i :: 0 <= i < n ==> xs[i] == y
  {
    seq(n, _ => y)
  }

  /** y hashed with itself, d times over. */
  function Doubled<T>(hash: (T, T) -> T, y: T, d: nat): (r: T) {
    if d == 0 then y else Doubled(hash, hash(y, y), d - 1)
  }

  lemma {:induction false} DoubledTwice<T>(hash: (T, T) -> T, y: T, a: nat, b: nat)
    ensures Doubled(hash, Doubled(hash, y, a), b) == Doubled(hash, y, a + b)
  {
    if a > 0 {
      DoubledTwice(hash, hash(y, y), a - 1, b);
    }
  }

  lemma LevelOfCopies<T>(hash: (T, T) -> T, n: nat, y: T)
    requires n > 1
    ensures Level(hash, Copies(n, y)) == Copies((n + 1) / 2, hash(y, y))
  {
  }

  lemma {:induction false} RootOfCopies<T>(hash: (T, T) -> T, n: nat, y: T)
    requires n > 0
    ensures Root(hash, Copies(n, y)) == Doubled(hash, y, Depth(n))
    decreases n
  {
    if n > 1 {
      var half, above := (n + 1) / 2, hash(y, y);
      LevelOfCopies(hash, n, y);
      RootOfCopies(hash, half, above);
      assert Depth(n) == 1 + Depth(half);
    }
  }

  lemma LiftedCopies<T>(hash: (T, T) -> T, n: nat, y: T, k: nat)
    requires n > 0
    ensures Root(hash, Copies(n, Doubled(hash, y, k))) == Doubled(hash, y, k + Depth(n))
  {
    RootOfCopies(hash, n, Doubled(hash, y, k));
    DoubledTwice(hash, y, k, Depth(n));
  }

  /** For any two lengths there are lists of these lengths with one root. */
  lemma SameRoot<T>(hash: (T, T) -> T, m: nat, n: nat, y: T) returns (xs: seq<T>, ys: seq<T>)
    requires m > 0 && n > 0
    ensures |xs| == m && |ys| == n && Root(hash, xs) == Root(hash, ys)
  {
    var d, e := Depth(m), Depth(n);
    xs, ys := Copies(m, Doubled(hash, y, e)), Copies(n, Doubled(hash, y, d));
    LiftedCopies(hash, m, y, e);
    LiftedCopies(hash, n, y, d);
  }

  /** With a collision-free pair hash, equal roots of an m-leaf and an n-leaf list force equal lists exactly when the
      lengths are equal. */
  lemma RootBindsIff<T(!new)>(hash: (T, T) -> T, m: nat, n: nat, y: T)
    requires Injective(hash) && m > 0 && n > 0
    ensures (forall xs: seq<T>, ys: seq<T> :: |xs| == m && |ys| == n && Root(hash, xs) == Root(hash, ys) ==> xs == ys)
            <==> m == n
  {
    if m == n {
      forall xs: seq<T>, ys: seq<T> | |xs| == m && |ys| == n && Root(hash, xs) == Root(hash, ys)
        ensures xs == ys
      {
        RootBinds(hash, xs, ys);
      }
    } else {
      var xs, ys := SameRoot(hash, m, n, y);
    }
  }

  // ---- small trees ----

  /** Left before right, and the last of an odd row hashed with itself. */
  lemma SmallTrees<T>(hash: (T, T) -> T, a: T, b: T, c: T)
    ensures Root(hash, [a]) == a
    ensures Root(hash, [a, b]) == hash(a, b)
    ensures Root(hash, [a, b, c]) == hash(hash(a, b), hash(c, c))
  {
    TreeOfTwo(hash, a, b);
    var row := Level(hash, [a, b, c]);
    assert row == [hash(a, b), hash(c, c)];
    TreeOfTwo(hash, hash(a, b), hash(c, c));
  }

  lemma TreeOfTwo<T>(hash: (T, T) -> T, a: T, b: T)
    ensures Root(hash, [a, b]) == hash(a, b)
  {
    var row := Level(hash, [a, b]);
    assert row == [hash(a, b)];
  }
}
