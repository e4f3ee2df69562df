/** Median-time-past: a block must be later than the median of its up to eleven predecessors. */
module MedianTime {

  const SPAN: nat := 11

  predicate IsSorted(s: seq<int>) {
    forall i, j :: 0 <= i <= j < |s| ==> s[i] <= s[j]
  }

  function InsertSorted(x: int, s: seq<int>): (r: seq<int>)
    requires IsSorted(s)
    ensures IsSorted(r) && |r| == |s| + 1
    ensures r[|s|] == if s == [] || s[|s| - 1] <= x then x else s[|s| - 1]
  {
    if s == [] || s[|s| - 1] <= x then s + [x]
    else InsertSorted(x, s[..|s| - 1]) + [s[|s| - 1]]
  }

  /** The sorted arrangement of a list. */
  function Sort(s: seq<int>): (r: seq<int>)
    ensures IsSorted(r) && |r| == |s|
  {
    if s == [] then [] else InsertSorted(s[|s| - 1], Sort(s[..|s| - 1]))
  }

  lemma {:induction false} InsertAdds(x: int, s: seq<int>)
    requires IsSorted(s)
    ensures multiset(InsertSorted(x, s)) == multiset(s) + multiset{x}
  {
    if s != [] && s[|s| - 1] > x {
      InsertAdds(x, s[..|s| - 1]);
      assert s == s[..|s| - 1] + [s[|s| - 1]];
    }
  }

  lemma {:induction false} SortPermutes(s: seq<int>)
    ensures multiset(Sort(s)) == multiset(s)
  {
    if s != [] {
      SortPermutes(s[..|s| - 1]);
      InsertAdds(s[|s| - 1], Sort(s[..|s| - 1]));
      assert s == s[..|s| - 1] + [s[|s| - 1]];
    }
  }

  /** Integer division by two as the source's i64 does it: toward zero. */
  function Halve(x: int): (r: int) {
    if x >= 0 then x / 2 else -((-x) / 2)
  }

  function Median(s: seq<int>): (m: int)
    requires |s| > 0
  {
    var t, h := Sort(s), |s| / 2;
    if |s| % 2 == 0 then Halve(t[h - 1] + t[h]) else t[h]
  }

  // ---- counting elements below a value ----

  function CountBelow(s: seq<int>, v: int): (n: nat)
    ensures n <= |s|
  {
    if s == [] then 0 else CountBelow(s[..|s| - 1], v) + (if s[|s| - 1] < v then 1 else 0)
  }

  lemma {:induction false} CountInsert(x: int, s: seq<int>, v: int)
    requires IsSorted(s)
    ensures CountBelow(InsertSorted(x, s), v) == CountBelow(s, v) + (if x < v then 1 else 0)
  {
    if s == [] || s[|s| - 1] <= x {
      assert (s + [x])[..|s|] == s;
    } else {
      var front := s[..|s| - 1];
      CountInsert(x, front, v);
      assert InsertSorted(x, s)[..|s|] == InsertSorted(x, front);
    }
  }

  lemma {:induction false} CountSort(s: seq<int>, v: int)
    ensures CountBelow(Sort(s), v) == CountBelow(s, v)
  {
    if s != [] {
      CountSort(s[..|s| - 1], v);
      CountInsert(s[|s| - 1], Sort(s[..|s| - 1]), v);
    }
  }

  /** In a sorted list position i holds at least v exactly when at most i elements are below v. */
  lemma {:induction false} RankIff(s: seq<int>, v: int, i: nat)
    requires IsSorted(s) && i < |s|
    ensures s[i] >= v <==> CountBelow(s, v) <= i
  {
    var n := |s|;
    if n > 1 {
      RankIff(s[..n - 1], v, if i < n - 1 then i else n - 2);
    }
  }

  lemma {:induction false} CountPrepend(x: int, s: seq<int>, v: int)
    ensures CountBelow([x] + s, v) == CountBelow(s, v) + (if x < v then 1 else 0)
  {
    if s == [] {
      assert [x] + s == [x] && [x][..0] == [];
    } else {
      CountPrepend(x, s[..|s| - 1], v);
      assert ([x] + s)[..|s|] == [x] + s[..|s| - 1];
    }
  }

  lemma {:induction false} CountPrefix(s: seq<int>, k: nat, v: int)
    requires k <= |s|
    ensures CountBelow(s[..k], v) <= CountBelow(s, v)
    decreases |s| - k
  {
    if k < |s| {
      CountPrefix(s, k + 1, v);
      assert s[..k + 1][..k] == s[..k];
    } else {
      assert s[..k] == s;
    }
  }

  /** At most half of a window lies below its median. */
  lemma FewBelowMedian(s: seq<int>)
    requires |s| > 0
    ensures CountBelow(s, Median(s)) <= |s| / 2
  {
    CountSort(s, Median(s));
    RankIff(Sort(s), Median(s), |s| / 2);
  }

  /** Few enough elements below v put the median at v or above. */
  lemma {:induction false} MedianAtLeast(s: seq<int>, v: int)
    requires |s| > 0
    requires CountBelow(s, v) <= (if |s| % 2 == 0 then |s| / 2 - 1 else |s| / 2)
    ensures Median(s) >= v
  {
    CountSort(s, v);
    RankIff(Sort(s), v, |s| / 2);
    if |s| % 2 == 0 {
      RankIff(Sort(s), v, |s| / 2 - 1);
    }
  }

  // ---- what the median is ----

  /** x is the k-th smallest of the list: fewer than k elements are below it, and at least k are not above it. */
  predicate HasRank(s: seq<int>, x: int, k: nat) { CountBelow(s, x) < k <= CountBelow(s, x + 1) }

  lemma {:induction false} RankIsPlace(s: seq<int>, x: int, k: nat)
    requires 0 < k <= |s|
    ensures HasRank(s, x, k) <==> Sort(s)[k - 1] == x
  {
    CountSort(s, x);
    CountSort(s, x + 1);
    SortedRank(Sort(s), x, k);
  }

  lemma {:induction false} SortedRank(t: seq<int>, x: int, k: nat)
    requires IsSorted(t) && 0 < k <= |t|
    ensures HasRank(t, x, k) <==> t[k - 1] == x
  {
    RankIff(t, x, k - 1);
    RankIff(t, x + 1, k - 1);
  }

  /** Every rank is taken by exactly one value, an element of the list. */
  lemma RankExists(s: seq<int>, k: nat) returns (x: int)
    requires 0 < k <= |s|
    ensures x in s && HasRank(s, x, k) && forall y :: HasRank(s, y, k) ==> y == x
  {
    x := Sort(s)[k - 1];
    RankIsPlace(s, x, k);
    SortPermutes(s);
    assert x in multiset(Sort(s));
    forall y | HasRank(s, y, k)
      ensures y == x
    {
      RankIsPlace(s, y, k);
    }
  }

  /** An odd number of timestamps has its middle one as the median: at most half lie below it and at most half above. */
  lemma {:induction false} OddMedian(s: seq<int>)
    requires |s| % 2 == 1
    ensures Median(s) in s && HasRank(s, Median(s), |s| / 2 + 1)
    ensures CountBelow(s, Median(s)) <= |s| / 2 && |s| - CountBelow(s, Median(s) + 1) <= |s| / 2
  {
    var x := RankExists(s, |s| / 2 + 1);
    assert Median(s) == x by { RankIsPlace(s, x, |s| / 2 + 1); }
  }

  /** An even number has the mean of the middle two, rounded toward zero. */
  lemma {:induction false} EvenMedian(s: seq<int>, a: int, b: int)
    requires |s| > 0 && |s| % 2 == 0 && HasRank(s, a, |s| / 2) && HasRank(s, b, |s| / 2 + 1)
    ensures a + b >= 0 ==> 2 * Median(s) <= a + b < 2 * Median(s) + 2
    ensures a + b < 0 ==> 2 * Median(s) - 2 < a + b <= 2 * Median(s)
  {
    RankIsPlace(s, a, |s| / 2);
    RankIsPlace(s, b, |s| / 2 + 1);
  }

  // ---- along a chain ----

  /** The window after one more block: newest first, never longer than the span. */
  function Slide(x: int, w: seq<int>): (w': seq<int>) {
    [x] + if |w| < SPAN then w else w[..SPAN - 1]
  }

  /** Timestamps of the up to eleven blocks before height k, newest first. */
  function Predecessors(ts: seq<int>, k: nat): (w: seq<int>)
    requires k <= |ts|
    ensures |w| == if k < SPAN then k else SPAN
  {
    if k == 0 then [] else Slide(ts[k - 1], Predecessors(ts, k - 1))
  }

  ghost predicate ObeysMedianTime(ts: seq<int>) {
    forall k :: 0 < k < |ts| ==> ts[k] > Median(Predecessors(ts, k))
  }

  lemma SlideRaisesMedian(x: int, w: seq<int>)
    requires 0 < |w| <= SPAN && x > Median(w)
    ensures Median(w) <= Median(Slide(x, w))
  {
    FewBelowMedian(w);
    var kept := if |w| < SPAN then w else w[..SPAN - 1];
    CountPrepend(x, kept, Median(w));
    if |w| == SPAN {
      CountPrefix(w, SPAN - 1, Median(w));
    }
    MedianAtLeast(Slide(x, w), Median(w));
  }

  /** Along a chain that obeys the rule, median-time-past never goes back. */
  lemma {:induction false} MedianTimeNeverDecreases(ts: seq<int>, j: nat, k: nat)
    requires ObeysMedianTime(ts) && 0 < j <= k <= |ts|
    ensures Median(Predecessors(ts, j)) <= Median(Predecessors(ts, k))
    decreases k
  {
    if j < k {
      MedianTimeNeverDecreases(ts, j, k - 1);
      SlideRaisesMedian(ts[k - 1], Predecessors(ts, k - 1));
    }
  }
}
