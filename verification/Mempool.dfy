/** Pending transactions: admission, confirmation, eviction, and every interleaving of the handlers. */
module Mempool {
  import opened Domain
  import opened Seqs
  import opened Bytes
  import opened Ledger

  const MAX_COUNT: nat := 10000
  const MAX_BYTES: nat := 300_000_000
  const EXPIRY: int := 86400
  const SEEN_FOR: int := 3600
  const U64_BOUND: nat := 0x1_0000_0000_0000_0000

  datatype Pool = Pool(pending: seq<Tx>, seen: map<string, int>)

  // ---- conflicts ----

  predicate Spends(tx: Tx, p: OutPoint) {
    exists i :: 0 <= i < |tx.inputs| && tx.inputs[i].point == p
  }

  /** The two transactions spend a common output. */
  predicate Clash(a: Tx, b: Tx) {
    exists i :: 0 <= i < |a.inputs| && Spends(b, a.inputs[i].point)
  }

  lemma ClashSymmetric(a: Tx, b: Tx)
    ensures Clash(a, b) <==> Clash(b, a)
  {
    if Clash(a, b) {
      var i :| 0 <= i < |a.inputs| && Spends(b, a.inputs[i].point);
      var j :| 0 <= j < |b.inputs| && b.inputs[j].point == a.inputs[i].point;
      assert Spends(a, b.inputs[j].point);
    }
    if Clash(b, a) {
      var i :| 0 <= i < |b.inputs| && Spends(a, b.inputs[i].point);
      var j :| 0 <= j < |a.inputs| && a.inputs[j].point == b.inputs[i].point;
      assert Spends(b, a.inputs[j].point);
    }
  }

  predicate Conflicts(txs: seq<Tx>, tx: Tx) {
    exists i :: 0 <= i < |txs| && Clash(txs[i], tx)
  }

  /** No two of the transactions spend a common output. */
  ghost predicate Disjoint(txs: seq<Tx>) {
    forall i, j :: 0 <= i < j < |txs| ==> !Clash(txs[i], txs[j])
  }

  lemma DisjointNext(txs: seq<Tx>, tx: Tx)
    ensures Disjoint(txs + [tx]) <==> Disjoint(txs) && !Conflicts(txs, tx)
  {
    var all := txs + [tx];
    if Disjoint(all) {
      assert forall i, j :: 0 <= i < j < |txs| ==> txs[i] == all[i] && txs[j] == all[j];
      forall i | 0 <= i < |txs|
        ensures !Clash(txs[i], tx)
      {
        assert !Clash(all[i], all[|txs|]);
      }
    }
  }

  lemma ConflictsNext(txs: seq<Tx>, last: Tx, tx: Tx)
    ensures Conflicts(txs + [last], tx) <==> Conflicts(txs, tx) || Clash(last, tx)
  {
    var all := txs + [last];
    assert all[|txs|] == last;
    if Conflicts(txs, tx) {
      var i :| 0 <= i < |txs| && Clash(txs[i], tx);
      assert all[i] == txs[i];
    }
  }

  // ---- keeping some ----

  /** The transactions that satisfy f, in order. */
  function Keep(txs: seq<Tx>, f: Tx -> bool): (r: seq<Tx>)
    ensures |r| <= |txs|
  {
    if txs == [] then []
    else Keep(txs[..|txs| - 1], f) + if f(txs[|txs| - 1]) then [txs[|txs| - 1]] else []
  }

  lemma {:induction false} KeepConflicts(txs: seq<Tx>, f: Tx -> bool, tx: Tx)
    requires !Conflicts(txs, tx)
    ensures !Conflicts(Keep(txs, f), tx)
  {
    if txs != [] {
      var front, last := txs[..|txs| - 1], txs[|txs| - 1];
      assert txs == front + [last];
      ConflictsNext(front, last, tx);
      KeepConflicts(front, f, tx);
      if f(last) {
        ConflictsNext(Keep(front, f), last, tx);
      } else {
        assert Keep(front, f) + [] == Keep(front, f);
      }
    }
  }

  lemma {:induction false} KeepDisjoint(txs: seq<Tx>, f: Tx -> bool)
    requires Disjoint(txs)
    ensures Disjoint(Keep(txs, f))
  {
    if txs != [] {
      var front, last := txs[..|txs| - 1], txs[|txs| - 1];
      assert txs == front + [last];
      DisjointNext(front, last);
      KeepDisjoint(front, f);
      if f(last) {
        KeepConflicts(front, f, last);
        DisjointNext(Keep(front, f), last);
      } else {
        assert Keep(front, f) + [] == Keep(front, f);
      }
    }
  }

  lemma {:induction false} KeepMembers(txs: seq<Tx>, f: Tx -> bool, tx: Tx)
    ensures tx in Keep(txs, f) <==> tx in txs && f(tx)
  {
    if txs != [] {
      KeepMembers(txs[..|txs| - 1], f, tx);
      assert txs == txs[..|txs| - 1] + [txs[|txs| - 1]];
    }
  }

  /** `after` is what `keep` leaves of `before`, in order: entry i of it came from position at[i], and exactly the
      positions of transactions to keep were taken. */
  ghost predicate Retained(before: seq<Tx>, after: seq<Tx>, keep: Tx -> bool, at: seq<nat>) {
    && |at| == |after|
    && (forall i :: 0 <= i < |at| ==> at[i] < |before| && after[i] == before[at[i]])
    && (forall i, j :: 0 <= i < j < |at| ==> at[i] < at[j])
    && (forall k :: 0 <= k < |before| ==> (k in at <==> keep(before[k])))
  }

  lemma RetainedTake(before: seq<Tx>, after: seq<Tx>, keep: Tx -> bool, at: seq<nat>, tx: Tx)
    requires Retained(before, after, keep, at) && keep(tx)
    ensures Retained(before + [tx], after + [tx], keep, at + [|before|])
  {
    var at' := at + [|before|];
    assert at'[|at|] == |before|;
    forall k | 0 <= k < |before|
      ensures k in at' <==> k in at
    {
    }
  }

  lemma RetainedSkip(before: seq<Tx>, after: seq<Tx>, keep: Tx -> bool, at: seq<nat>, tx: Tx)
    requires Retained(before, after, keep, at) && !keep(tx)
    ensures Retained(before + [tx], after, keep, at)
  {
  }

  // ---- ordering by fee rate ----

  /** The node does not look the inputs up: it takes every one to be worth this much. */
  const INPUT_ESTIMATE: nat := 1_000_000_000_000_000_000

  /** The estimated fee; nothing when it does not fit a u64, where the conversion aborts. */
  function FeeEstimate(tx: Tx): (r: Option<nat>)
    ensures r.Some? ==> r.value < U64_BOUND
  {
    var taken, given := |tx.inputs| * INPUT_ESTIMATE, OutSum(tx.outputs);
    if given >= U256_BOUND then None
    else if taken <= given then Some(0)
    else if taken - given < U64_BOUND then Some(taken - given) else None
  }

  function Rate(size: Tx -> nat, tx: Tx): (rate: nat) {
    var fee := FeeEstimate(tx);
    if fee.None? then 0 else if size(tx) == 0 then fee.value else fee.value / size(tx)
  }

  type Key = Tx -> nat

  function ByRate(size: Tx -> nat): (key: Key) { (tx: Tx) => Rate(size, tx) }

  ghost predicate Ascending(key: Key, txs: seq<Tx>) {
    forall i, j :: 0 <= i < j < |txs| ==> key(txs[i]) <= key(txs[j])
  }

  /** Behind everything that is not above it. */
  function Place(key: Key, tx: Tx, txs: seq<Tx>): (r: seq<Tx>)
    ensures |r| == |txs| + 1
  {
    if txs == [] || key(txs[|txs| - 1]) <= key(tx) then txs + [tx]
    else Place(key, tx, txs[..|txs| - 1]) + [txs[|txs| - 1]]
  }

  /** The stable sort by ascending key. */
  function SortBy(key: Key, txs: seq<Tx>): (r: seq<Tx>)
    ensures |r| == |txs|
  {
    if txs == [] then [] else Place(key, txs[|txs| - 1], SortBy(key, txs[..|txs| - 1]))
  }

  lemma AscendingNext(key: Key, txs: seq<Tx>, tx: Tx)
    requires Ascending(key, txs) && forall i :: 0 <= i < |txs| ==> key(txs[i]) <= key(tx)
    ensures Ascending(key, txs + [tx])
  {
  }

  lemma {:induction false} PlaceBelow(key: Key, tx: Tx, txs: seq<Tx>, bound: nat)
    requires key(tx) <= bound && forall i :: 0 <= i < |txs| ==> key(txs[i]) <= bound
    ensures forall i :: 0 <= i < |Place(key, tx, txs)| ==> key(Place(key, tx, txs)[i]) <= bound
  {
    if txs != [] && key(txs[|txs| - 1]) > key(tx) {
      PlaceBelow(key, tx, txs[..|txs| - 1], bound);
    }
  }

  lemma {:induction false} PlaceAscends(key: Key, tx: Tx, txs: seq<Tx>)
    requires Ascending(key, txs)
    ensures Ascending(key, Place(key, tx, txs))
  {
    if txs == [] {
    } else if key(txs[|txs| - 1]) <= key(tx) {
      AscendingNext(key, txs, tx);
    } else {
      var front, last := txs[..|txs| - 1], txs[|txs| - 1];
      PlaceAscends(key, tx, front);
      PlaceBelow(key, tx, front, key(last));
      AscendingNext(key, Place(key, tx, front), last);
    }
  }

  lemma {:induction false} SortAscends(key: Key, txs: seq<Tx>)
    ensures Ascending(key, SortBy(key, txs))
  {
    if txs != [] {
      SortAscends(key, txs[..|txs| - 1]);
      PlaceAscends(key, txs[|txs| - 1], SortBy(key, txs[..|txs| - 1]));
    }
  }

  lemma {:induction false} PlaceAdds(key: Key, tx: Tx, txs: seq<Tx>)
    ensures multiset(Place(key, tx, txs)) == multiset(txs) + multiset{tx}
  {
    if txs != [] && key(txs[|txs| - 1]) > key(tx) {
      PlaceAdds(key, tx, txs[..|txs| - 1]);
      assert txs == txs[..|txs| - 1] + [txs[|txs| - 1]];
    }
  }

  lemma {:induction false} SortPermutes(key: Key, txs: seq<Tx>)
    ensures multiset(SortBy(key, txs)) == multiset(txs)
  {
    if txs != [] {
      SortPermutes(key, txs[..|txs| - 1]);
      PlaceAdds(key, txs[|txs| - 1], SortBy(key, txs[..|txs| - 1]));
      assert txs == txs[..|txs| - 1] + [txs[|txs| - 1]];
    }
  }

  function HasKey(key: Key, k: nat): (f: Tx -> bool) { (tx: Tx) => key(tx) == k }

  /** The transactions with one particular key. */
  function WithKey(key: Key, txs: seq<Tx>, k: nat): (r: seq<Tx>) {
    Keep(txs, HasKey(key, k))
  }

  lemma WithKeyNext(key: Key, txs: seq<Tx>, tx: Tx, k: nat)
    ensures WithKey(key, txs + [tx], k) == WithKey(key, txs, k) + if key(tx) == k then [tx] else []
  {
    assert (txs + [tx])[..|txs|] == txs;
  }

  lemma {:induction false} PlaceIsStable(key: Key, tx: Tx, txs: seq<Tx>, k: nat)
    ensures WithKey(key, Place(key, tx, txs), k) == WithKey(key, txs, k) + if key(tx) == k then [tx] else []
  {
    if txs == [] || key(txs[|txs| - 1]) <= key(tx) {
      WithKeyNext(key, txs, tx, k);
    } else {
      var front, last := txs[..|txs| - 1], txs[|txs| - 1];
      assert txs == front + [last];
      PlaceIsStable(key, tx, front, k);
      WithKeyNext(key, front, last, k);
      WithKeyNext(key, Place(key, tx, front), last, k);
    }
  }

  /** Transactions with equal keys keep their order. */
  lemma {:induction false} SortIsStable(key: Key, txs: seq<Tx>, k: nat)
    ensures WithKey(key, SortBy(key, txs), k) == WithKey(key, txs, k)
  {
    if txs != [] {
      var front, last := txs[..|txs| - 1], txs[|txs| - 1];
      assert txs == front + [last];
      SortIsStable(key, front, k);
      PlaceIsStable(key, last, SortBy(key, front), k);
      WithKeyNext(key, front, last, k);
    }
  }

  lemma {:induction false} PlaceConflicts(key: Key, tx: Tx, txs: seq<Tx>, other: Tx)
    ensures Conflicts(Place(key, tx, txs), other) <==> Conflicts(txs, other) || Clash(tx, other)
  {
    if txs == [] || key(txs[|txs| - 1]) <= key(tx) {
      ConflictsNext(txs, tx, other);
    } else {
      var front, last := txs[..|txs| - 1], txs[|txs| - 1];
      assert txs == front + [last];
      PlaceConflicts(key, tx, front, other);
      ConflictsNext(front, last, other);
      ConflictsNext(Place(key, tx, front), last, other);
    }
  }

  lemma {:induction false} PlaceDisjoint(key: Key, tx: Tx, txs: seq<Tx>)
    requires Disjoint(txs) && !Conflicts(txs, tx)
    ensures Disjoint(Place(key, tx, txs))
  {
    if txs == [] || key(txs[|txs| - 1]) <= key(tx) {
      DisjointNext(txs, tx);
    } else {
      var front, last := txs[..|txs| - 1], txs[|txs| - 1];
      assert txs == front + [last];
      DisjointNext(front, last);
      ConflictsNext(front, last, tx);
      PlaceDisjoint(key, tx, front);
      PlaceConflicts(key, tx, front, last);
      ClashSymmetric(tx, last);
      DisjointNext(Place(key, tx, front), last);
    }
  }

  lemma {:induction false} SortConflicts(key: Key, txs: seq<Tx>, other: Tx)
    ensures Conflicts(SortBy(key, txs), other) <==> Conflicts(txs, other)
  {
    if txs != [] {
      var front, last := txs[..|txs| - 1], txs[|txs| - 1];
      assert txs == front + [last];
      SortConflicts(key, front, other);
      PlaceConflicts(key, last, SortBy(key, front), other);
      ConflictsNext(front, last, other);
    }
  }

  lemma {:induction false} SortDisjoint(key: Key, txs: seq<Tx>)
    requires Disjoint(txs)
    ensures Disjoint(SortBy(key, txs))
  {
    if txs != [] {
      var front, last := txs[..|txs| - 1], txs[|txs| - 1];
      assert txs == front + [last];
      DisjointNext(front, last);
      SortDisjoint(key, front);
      SortConflicts(key, front, last);
      PlaceDisjoint(key, last, SortBy(key, front));
    }
  }

  // ---- eviction ----

  function TotalSize(size: Tx -> nat, txs: seq<Tx>): (n: nat) {
    if txs == [] then 0 else size(txs[0]) + TotalSize(size, txs[1..])
  }

  predicate Fits(size: Tx -> nat, txs: seq<Tx>) {
    |txs| <= MAX_COUNT && TotalSize(size, txs) <= MAX_BYTES
  }

  /** How many to drop from the front until the rest fits. */
  function DropCount(size: Tx -> nat, txs: seq<Tx>): (k: nat)
    ensures k <= |txs|
  {
    if txs == [] || Fits(size, txs) then 0 else 1 + DropCount(size, txs[1..])
  }

  /** Dropping k is enough and dropping fewer is not. */
  ghost predicate ShortestDrop(size: Tx -> nat, txs: seq<Tx>, k: nat) {
    k <= |txs| && Fits(size, txs[k..]) && forall j :: 0 <= j < k ==> !Fits(size, txs[j..])
  }

  lemma {:induction false} DropCountIsShortest(size: Tx -> nat, txs: seq<Tx>)
    ensures ShortestDrop(size, txs, DropCount(size, txs))
  {
    assert txs[0..] == txs;
    if txs != [] && !Fits(size, txs) {
      var k := DropCount(size, txs[1..]);
      DropCountIsShortest(size, txs[1..]);
      assert txs[k + 1..] == txs[1..][k..];
      forall j | 0 <= j < k + 1
        ensures !Fits(size, txs[j..])
      {
        if j > 0 {
          assert txs[j..] == txs[1..][j - 1..];
        }
      }
    }
  }

  lemma ShortestIsOne(size: Tx -> nat, txs: seq<Tx>, j: nat, k: nat)
    requires ShortestDrop(size, txs, j) && ShortestDrop(size, txs, k)
    ensures j == k
  {
  }

  function RemoveSeen(seen: map<string, int>, dropped: seq<Tx>): (m: map<string, int>) {
    if dropped == [] then seen else RemoveSeen(seen, dropped[..|dropped| - 1]) - {dropped[|dropped| - 1].txid}
  }

  lemma {:induction false} SeenAfter(seen: map<string, int>, dropped: seq<Tx>, id: string)
    ensures id in RemoveSeen(seen, dropped) <==> id in seen && forall i :: 0 <= i < |dropped| ==> dropped[i].txid != id
    ensures id in RemoveSeen(seen, dropped) ==> RemoveSeen(seen, dropped)[id] == seen[id]
  {
    if dropped != [] {
      var front, last := dropped[..|dropped| - 1], dropped[|dropped| - 1];
      SeenAfter(seen, front, id);
      assert dropped == front + [last];
      assert (forall i :: 0 <= i < |dropped| ==> dropped[i].txid != id)
        <==> (forall i :: 0 <= i < |front| ==> front[i].txid != id) && last.txid != id by {
        assert forall i :: 0 <= i < |front| ==> front[i] == dropped[i];
      }
    }
  }

  function Recent(now: int): (f: Tx -> bool) { (tx: Tx) => now - tx.timestamp <= EXPIRY }

  function Unexpired(txs: seq<Tx>, now: int): (r: seq<Tx>) {
    Keep(txs, Recent(now))
  }

  predicate AllEstimated(txs: seq<Tx>) {
    forall i :: 0 <= i < |txs| ==> FeeEstimate(txs[i]).Some?
  }

  /** The pool afterwards, or the pool left behind by an abort inside the lock. */
  datatype Enforced = Enforced(pool: Pool, aborted: bool)

  /** enforce_mempool_limit */
  function Enforce(size: Tx -> nat, pool: Pool, now: int): (r: Enforced) {
    var kept := Unexpired(pool.pending, now);
    if |kept| <= MAX_COUNT && |kept| <= MAX_BYTES / 10240 then Enforced(pool.(pending := kept), false)
    else if !AllEstimated(kept) then Enforced(pool.(pending := kept), true)
    else
      var sorted := SortBy(ByRate(size), kept);
      var k := DropCount(size, sorted);
      Enforced(Pool(sorted[k..], RemoveSeen(pool.seen, sorted[..k])), false)
  }

  /** The transactions are split, in ascending fee rate, into the shortest prefix to drop and a rest that fits. */
  ghost predicate SplitsShortest(size: Tx -> nat, before: seq<Tx>, dropped: seq<Tx>, kept: seq<Tx>) {
    && multiset(dropped + kept) == multiset(before)
    && Ascending(ByRate(size), dropped + kept)
    && ShortestDrop(size, dropped + kept, |dropped|)
  }

  lemma SortedSplit(size: Tx -> nat, before: seq<Tx>)
    ensures var sorted := SortBy(ByRate(size), before);
      var k := DropCount(size, sorted);
      SplitsShortest(size, before, sorted[..k], sorted[k..])
  {
    var sorted := SortBy(ByRate(size), before);
    SortAscends(ByRate(size), before);
    SortPermutes(ByRate(size), before);
    DropCountIsShortest(size, sorted);
    var k := DropCount(size, sorted);
    assert sorted[..k] + sorted[k..] == sorted;
  }

  /** When eviction runs it drops exactly the shortest prefix of the fee-rate order that makes the rest fit:
      nothing kept has a lower rate than anything dropped, nothing else is lost, and exactly the dropped
      transactions can be seen again. */
  lemma EvictionIsShortest(size: Tx -> nat, pool: Pool, now: int)
    requires |Unexpired(pool.pending, now)| > MAX_COUNT && !Enforce(size, pool, now).aborted
    ensures exists dropped ::
      && SplitsShortest(size, Unexpired(pool.pending, now), dropped, Enforce(size, pool, now).pool.pending)
      && Enforce(size, pool, now).pool.seen == RemoveSeen(pool.seen, dropped)
  {
    SortedSplit(size, Unexpired(pool.pending, now));
  }

  /** Enforcement always meets the count limit; it meets the byte limit exactly when there were too many
      transactions to begin with or their bytes were within the limit already. */
  lemma LimitsMetIff(size: Tx -> nat, pool: Pool, now: int)
    requires !Enforce(size, pool, now).aborted
    ensures var r, young := Enforce(size, pool, now).pool.pending, Unexpired(pool.pending, now);
      && |r| <= MAX_COUNT
      && (Fits(size, r) <==> |young| > MAX_COUNT || TotalSize(size, young) <= MAX_BYTES)
  {
    var young := Unexpired(pool.pending, now);
    if |young| > MAX_COUNT {
      DropCountIsShortest(size, SortBy(ByRate(size), young));
    }
  }

  // ---- the limits in numbers ----

  /** The estimated fee for each byte: every input counted as 10^18, a size of zero as one. */
  function FeePerByte(size: Tx -> nat, tx: Tx): (rate: nat) {
    var taken, given := 1_000_000_000_000_000_000 * |tx.inputs|, OutSum(tx.outputs);
    (if taken > given then taken - given else 0) / (if size(tx) == 0 then 1 else size(tx))
  }

  lemma RateIsFeePerByte(size: Tx -> nat, tx: Tx)
    requires FeeEstimate(tx).Some?
    ensures ByRate(size)(tx) == FeePerByte(size, tx)
  {
  }

  /** Young transactions: submitted at most a day ago. */
  lemma UnexpiredMembers(txs: seq<Tx>, now: int, tx: Tx)
    ensures tx in Unexpired(txs, now) <==> tx in txs && now - tx.timestamp <= 86400
  {
    KeepMembers(txs, Recent(now), tx);
  }

  lemma SortedMembers(key: Key, txs: seq<Tx>, tx: Tx)
    ensures tx in SortBy(key, txs) <==> tx in txs
  {
    SortPermutes(key, txs);
    assert tx in SortBy(key, txs) <==> tx in multiset(SortBy(key, txs));
    assert tx in txs <==> tx in multiset(txs);
  }

  lemma SplitMembers(s: seq<Tx>, k: nat, tx: Tx)
    requires k <= |s|
    ensures tx in s <==> tx in s[..k] || tx in s[k..]
  {
    assert s == s[..k] + s[k..];
  }

  /** With at most 10000 transactions younger than a day, exactly these stay. With more, the rest is split so that what
      stays is within 10000 transactions and 300,000,000 bytes, nothing that stays pays less for a byte than anything
      that goes, and one fewer would not have been enough. */
  lemma EvictionInNumbers(size: Tx -> nat, pool: Pool, now: int) returns (dropped: seq<Tx>)
    requires !Enforce(size, pool, now).aborted
    ensures var kept := Enforce(size, pool, now).pool.pending;
      && (forall tx :: tx in dropped || tx in kept <==> tx in pool.pending && now - tx.timestamp <= 86400)
      && |dropped| + |kept| == |Unexpired(pool.pending, now)|
      && (|Unexpired(pool.pending, now)| <= 10000 ==> dropped == [])
      && (forall x, y :: x in dropped && y in kept ==> FeePerByte(size, x) <= FeePerByte(size, y))
      && |kept| <= 10000
      && (dropped != [] ==> TotalSize(size, kept) <= 300_000_000)
      && (dropped != [] ==> |kept| == 10000 || TotalSize(size, [dropped[|dropped| - 1]] + kept) > 300_000_000)
  {
    var young := Unexpired(pool.pending, now);
    if |young| <= MAX_COUNT {
      dropped := [];
      forall tx
        ensures tx in young <==> tx in pool.pending && now - tx.timestamp <= 86400
      {
        UnexpiredMembers(pool.pending, now, tx);
      }
    } else {
      dropped := EvictedInNumbers(size, young);
      forall tx
        ensures tx in young <==> tx in pool.pending && now - tx.timestamp <= 86400
      {
        UnexpiredMembers(pool.pending, now, tx);
      }
    }
  }

  lemma {:induction false} EvictedInNumbers(size: Tx -> nat, young: seq<Tx>) returns (dropped: seq<Tx>)
    requires |young| > MAX_COUNT && AllEstimated(young)
    ensures var sorted := SortBy(ByRate(size), young);
      var kept := sorted[DropCount(size, sorted)..];
      && dropped == sorted[..DropCount(size, sorted)] && dropped != []
      && (forall tx :: tx in dropped || tx in kept <==> tx in young)
      && (forall x, y :: x in dropped && y in kept ==> FeePerByte(size, x) <= FeePerByte(size, y))
      && |kept| <= 10000 && TotalSize(size, kept) <= 300_000_000
      && (|kept| == 10000 || TotalSize(size, [dropped[|dropped| - 1]] + kept) > 300_000_000)
  {
    var sorted := SortBy(ByRate(size), young);
    var k := DropCount(size, sorted);
    dropped := sorted[..k];
    DropCountIsShortest(size, sorted);
    ShortestInNumbers(size, sorted, k, MAX_COUNT);
    SplitOfSorted(size, young, sorted, k);
    LowestGo(size, young, sorted, k);
  }

  lemma ShortestInNumbers(size: Tx -> nat, sorted: seq<Tx>, k: nat, limit: nat)
    requires ShortestDrop(size, sorted, k) && |sorted| > limit == MAX_COUNT
    ensures k > 0 && |sorted[k..]| <= limit && TotalSize(size, sorted[k..]) <= MAX_BYTES
    ensures |sorted[k..]| == limit || TotalSize(size, [sorted[k - 1]] + sorted[k..]) > MAX_BYTES
  {
    assert sorted[0..] == sorted && !Fits(size, sorted);
    assert sorted[k - 1..] == [sorted[k - 1]] + sorted[k..] && !Fits(size, sorted[k - 1..]);
  }

  lemma SplitOfSorted(size: Tx -> nat, young: seq<Tx>, sorted: seq<Tx>, k: nat)
    requires sorted == SortBy(ByRate(size), young) && k <= |sorted|
    ensures forall tx :: tx in sorted[..k] || tx in sorted[k..] <==> tx in young
  {
    forall tx
      ensures tx in sorted[..k] || tx in sorted[k..] <==> tx in young
    {
      SortedMembers(ByRate(size), young, tx);
      SplitMembers(sorted, k, tx);
    }
  }

  lemma LowestGo(size: Tx -> nat, young: seq<Tx>, sorted: seq<Tx>, k: nat)
    requires AllEstimated(young) && sorted == SortBy(ByRate(size), young) && k <= |sorted|
    ensures forall x, y :: x in sorted[..k] && y in sorted[k..] ==> FeePerByte(size, x) <= FeePerByte(size, y)
  {
    forall x, y | x in sorted[..k] && y in sorted[k..]
      ensures FeePerByte(size, x) <= FeePerByte(size, y)
    {
      LowerGoes(size, young, sorted, k, x, y);
    }
  }

  lemma LowerGoes(size: Tx -> nat, young: seq<Tx>, sorted: seq<Tx>, k: nat, x: Tx, y: Tx)
    requires AllEstimated(young) && sorted == SortBy(ByRate(size), young) && k <= |sorted|
    requires x in sorted[..k] && y in sorted[k..]
    ensures FeePerByte(size, x) <= FeePerByte(size, y)
  {
    SortAscends(ByRate(size), young);
    var i :| 0 <= i < k && sorted[i] == x;
    var j :| k <= j < |sorted| && sorted[j] == y;
    SortedMembers(ByRate(size), young, x);
    SortedMembers(ByRate(size), young, y);
    RateIsFeePerByte(size, x);
    RateIsFeePerByte(size, y);
  }

  lemma EnforceKeeps(size: Tx -> nat, pool: Pool, now: int)
    requires Disjoint(pool.pending)
    ensures Disjoint(Enforce(size, pool, now).pool.pending)
  {
    var kept := Unexpired(pool.pending, now);
    KeepDisjoint(pool.pending, Recent(now));
    SortDisjoint(ByRate(size), kept);
  }

  // ---- admission ----

  /** The second lock section, up to and including the push. */
  function Admitted(pool: Pool, tx: Tx, now: int): (r: Option<Pool>) {
    if tx.txid in pool.seen || Conflicts(pool.pending, tx) then None
    else Some(Pool(pool.pending + [tx], pool.seen[tx.txid := now]))
  }

  function NotAmong(txids: set<string>): (f: Tx -> bool) { (tx: Tx) => tx.txid !in txids }

  function Confirmed(pool: Pool, txids: set<string>): (r: Pool) {
    pool.(pending := Keep(pool.pending, NotAmong(txids)))
  }

  /** Exactly the transactions whose txids were confirmed leave. */
  lemma ConfirmedMembers(pool: Pool, txids: set<string>, tx: Tx)
    ensures tx in Confirmed(pool, txids).pending <==> tx in pool.pending && tx.txid !in txids
    ensures Confirmed(pool, txids).seen == pool.seen
  {
    KeepMembers(pool.pending, NotAmong(txids), tx);
  }

  function Forgotten(pool: Pool, now: int): (r: Pool) {
    pool.(seen := map id | id in pool.seen && now - pool.seen[id] < SEEN_FOR :: pool.seen[id])
  }

  /** A transaction is admitted exactly when its txid is not remembered and no pending transaction spends an output it
      spends; then it is last in the list and remembered from now on. */
  lemma AdmittedIff(pool: Pool, tx: Tx, now: int)
    ensures Admitted(pool, tx, now).Some?
      <==> && tx.txid !in pool.seen
           && forall i, j, k :: 0 <= i < |pool.pending| && 0 <= j < |pool.pending[i].inputs| && 0 <= k < |tx.inputs| ==>
                pool.pending[i].inputs[j].point != tx.inputs[k].point
    ensures Admitted(pool, tx, now).Some? ==>
      Admitted(pool, tx, now).value == Pool(pool.pending + [tx], pool.seen[tx.txid := now])
  {
    if i, j, k :| 0 <= i < |pool.pending| && 0 <= j < |pool.pending[i].inputs| && 0 <= k < |tx.inputs|
                  && pool.pending[i].inputs[j].point == tx.inputs[k].point {
      assert Spends(tx, pool.pending[i].inputs[j].point) && Clash(pool.pending[i], tx);
    }
  }

  lemma AdmittedKeeps(pool: Pool, tx: Tx, now: int)
    requires Disjoint(pool.pending) && Admitted(pool, tx, now).Some?
    ensures Disjoint(Admitted(pool, tx, now).value.pending)
  {
    DisjointNext(pool.pending, tx);
  }

  class MempoolState {
    const size: Tx -> nat
    var pending: seq<Tx>
    var seenTx: map<string, int>

    ghost function Current(): (p: Pool)
      reads this
    {
      Pool(pending, seenTx)
    }

    constructor (size: Tx -> nat)
      ensures Current() == Pool([], map[]) && this.size == size
    {
      this.size := size;
      pending := [];
      seenTx := map[];
    }

    /** Does a pending transaction spend one of these outputs? */
    method HasConflict(tx: Tx) returns (found: bool)
      ensures found == Conflicts(pending, tx)
    {
      var points := set i | 0 <= i < |tx.inputs| :: tx.inputs[i].point;
      assert forall p :: p in points <==> Spends(tx, p);
      for i := 0 to |pending|
        invariant !Conflicts(pending[..i], tx)
      {
        for j := 0 to |pending[i].inputs|
          invariant forall k :: 0 <= k < j ==> !Spends(tx, pending[i].inputs[k].point)
        {
          if pending[i].inputs[j].point in points {
            assert Clash(pending[i], tx);
            return true;
          }
        }
        assert pending[..i + 1] == pending[..i] + [pending[i]];
        ConflictsNext(pending[..i], pending[i], tx);
      }
      WholePrefix(pending);
      return false;
    }

    /** Admission under the lock; the P2P handler goes on to enforce the limits, the HTTP handlers do not. */
    method Admit(tx: Tx, now: int) returns (added: bool)
      modifies this
      ensures match Admitted(old(Current()), tx, now)
        case None => !added && Current() == old(Current())
        case Some(p) => added && Current() == p
    {
      if tx.txid in seenTx {
        return false;
      }
      var conflict := HasConflict(tx);
      if conflict {
        return false;
      }
      seenTx := seenTx[tx.txid := now];
      pending := pending + [tx];
      return true;
    }

    /** `retain` on the pending list. */
    method Retain(keep: Tx -> bool) returns (ghost at: seq<nat>)
      modifies this`pending
      ensures pending == Keep(old(pending), keep)
      ensures Retained(old(pending), pending, keep, at)
    {
      var txs, kept := pending, [];
      at := [];
      for i := 0 to |txs|
        invariant pending == old(pending) == txs
        invariant kept == Keep(txs[..i], keep)
        invariant Retained(txs[..i], kept, keep, at)
      {
        NextPrefix(txs, i);
        assert txs[..i + 1] == txs[..i] + [txs[i]];
        if keep(txs[i]) {
          RetainedTake(txs[..i], kept, keep, at, txs[i]);
          kept := kept + [txs[i]];
          at := at + [i];
        } else {
          RetainedSkip(txs[..i], kept, keep, at, txs[i]);
        }
      }
      WholePrefix(txs);
      pending := kept;
    }

    /** Drop what a new block contains. */
    method Confirm(txids: set<string>) returns (ghost at: seq<nat>)
      modifies this`pending
      ensures Current() == Confirmed(old(Current()), txids)
      ensures Retained(old(pending), pending, NotAmong(txids), at)
    {
      at := Retain(NotAmong(txids));
    }

    /** The periodic clean-up of remembered txids, entry by entry in whatever order the table has. */
    method ForgetOld(now: int)
      modifies this`seenTx
      ensures forall id :: id in seenTx <==> id in old(seenTx) && now - old(seenTx)[id] < 3600
      ensures forall id :: id in seenTx ==> seenTx[id] == old(seenTx)[id]
      ensures Current() == Forgotten(old(Current()), now)
    {
      var rest := seenTx.Keys;
      while rest != {}
        invariant rest <= seenTx.Keys <= old(seenTx).Keys
        invariant forall id :: id in seenTx ==> seenTx[id] == old(seenTx)[id]
        invariant forall id :: id in old(seenTx) && id !in rest ==> (id in seenTx <==> now - old(seenTx)[id] < SEEN_FOR)
        decreases |rest|
      {
        var id :| id in rest;
        rest := rest - {id};
        if now - seenTx[id] >= SEEN_FOR {
          seenTx := seenTx - {id};
        }
      }
    }

    /** Encoded sizes and their sum. */
    method Measure() returns (sizes: seq<nat>, total: nat)
      ensures |sizes| == |pending| && forall i :: 0 <= i < |pending| ==> sizes[i] == size(pending[i])
      ensures total == TotalSize(size, pending)
    {
      var txs := pending;
      sizes, total := seq(|txs|, i requires 0 <= i < |txs| => size(txs[i])), 0;
      var i := |pending|;
      while i > 0
        invariant 0 <= i <= |pending|
        invariant total == TotalSize(size, pending[i..])
      {
        i := i - 1;
        assert pending[i..][1..] == pending[i + 1..];
        total := total + sizes[i];
      }
      assert pending[0..] == pending;
    }

    /** How many to drop from the front: first for the count, then for the bytes. */
    method CountToDrop() returns (k: nat)
      ensures k == DropCount(size, pending)
    {
      var sizes, total := Measure();
      var excess := if |pending| > MAX_COUNT then |pending| - MAX_COUNT else 0;
      k := excess;
      if total > MAX_BYTES {
        var remaining := BytesBehind(sizes, total, excess);
        k := DropForBytes(sizes, remaining, excess);
      } else {
        SuffixSmaller(size, pending, k);
        assert StillOver(size, pending, excess, k);
      }
      DroppedEnough(size, pending, excess, k);
    }

    /** The bytes left once the first `excess` are gone. */
    method BytesBehind(sizes: seq<nat>, total: nat, excess: nat) returns (remaining: nat)
      requires |sizes| == |pending| && forall i :: 0 <= i < |pending| ==> sizes[i] == size(pending[i])
      requires total == TotalSize(size, pending) && excess <= |pending|
      ensures remaining == TotalSize(size, pending[excess..])
    {
      remaining := total;
      assert pending[0..] == pending;
      for i := 0 to excess
        invariant remaining == TotalSize(size, pending[i..])
      {
        DropOne(size, pending, i);
        remaining := remaining - sizes[i];
      }
    }

    method DropForBytes(sizes: seq<nat>, bytes: nat, excess: nat) returns (k: nat)
      requires |sizes| == |pending| && forall i :: 0 <= i < |pending| ==> sizes[i] == size(pending[i])
      requires excess <= |pending| && bytes == TotalSize(size, pending[excess..])
      ensures excess <= k <= |pending| && TotalSize(size, pending[k..]) <= MAX_BYTES
      ensures StillOver(size, pending, excess, k)
    {
      var remaining: nat := bytes;
      ghost var txs := pending;
      k := excess;
      while remaining > MAX_BYTES && k < |sizes|
        invariant Trimmed(size, txs, excess, k, remaining)
      {
        TrimNext(size, txs, excess, k, remaining);
        remaining := remaining - sizes[k];
        k := k + 1;
      }
      TrimEnds(size, txs, excess, k, remaining);
    }

    method EnforceMempoolLimit(now: int) returns (aborted: bool)
      modifies this
      ensures Enforced(Current(), aborted) == Enforce(size, old(Current()), now)
    {
      ghost var at := Retain(Recent(now));
      if |pending| <= MAX_COUNT && |pending| <= MAX_BYTES / 10240 {
        return false;
      }
      if !AllEstimated(pending) {
        return true;
      }
      pending := SortBy(ByRate(size), pending);
      var k := CountToDrop();
      var dropped := pending[..k];
      pending := pending[k..];
      Unsee(dropped);
      return false;
    }

    method Unsee(dropped: seq<Tx>)
      modifies this`seenTx
      ensures seenTx == RemoveSeen(old(seenTx), dropped)
    {
      for i := 0 to |dropped|
        invariant seenTx == RemoveSeen(old(seenTx), dropped[..i])
      {
        NextPrefix(dropped, i);
        seenTx := seenTx - {dropped[i].txid};
      }
      WholePrefix(dropped);
    }
  }

  /** Dropping fewer than k leaves too many bytes. */
  ghost predicate StillOver(size: Tx -> nat, txs: seq<Tx>, excess: nat, k: nat) {
    k <= |txs| && forall j :: excess <= j < k ==> TotalSize(size, txs[j..]) > MAX_BYTES
  }

  /** Where dropping for bytes stands: k are to go, the rest takes `remaining` bytes, and fewer would not have done. */
  ghost predicate Trimmed(size: Tx -> nat, txs: seq<Tx>, excess: nat, k: nat, remaining: nat) {
    excess <= k <= |txs| && remaining == TotalSize(size, txs[k..]) && StillOver(size, txs, excess, k)
  }

  lemma TrimNext(size: Tx -> nat, txs: seq<Tx>, excess: nat, k: nat, remaining: nat)
    requires Trimmed(size, txs, excess, k, remaining) && k < |txs| && remaining > MAX_BYTES
    ensures remaining >= size(txs[k]) && Trimmed(size, txs, excess, k + 1, remaining - size(txs[k]))
  {
    DropOne(size, txs, k);
  }

  lemma TrimEnds(size: Tx -> nat, txs: seq<Tx>, excess: nat, k: nat, remaining: nat)
    requires Trimmed(size, txs, excess, k, remaining) && (remaining <= MAX_BYTES || k == |txs|)
    ensures TotalSize(size, txs[k..]) <= MAX_BYTES
  {
    assert k == |txs| ==> txs[k..] == [];
  }

  lemma DroppedEnough(size: Tx -> nat, txs: seq<Tx>, excess: nat, k: nat)
    requires excess <= k <= |txs| && excess == (if |txs| > MAX_COUNT then |txs| - MAX_COUNT else 0)
    requires TotalSize(size, txs[k..]) <= MAX_BYTES
    requires StillOver(size, txs, excess, k)
    ensures k == DropCount(size, txs)
  {
    assert ShortestDrop(size, txs, k);
    DropCountIsShortest(size, txs);
    ShortestIsOne(size, txs, k, DropCount(size, txs));
  }

  lemma DropOne(size: Tx -> nat, txs: seq<Tx>, i: nat)
    requires i < |txs|
    ensures TotalSize(size, txs[i..]) == size(txs[i]) + TotalSize(size, txs[i + 1..])
  {
    assert txs[i..][1..] == txs[i + 1..];
  }

  lemma {:induction false} SuffixSmaller(size: Tx -> nat, txs: seq<Tx>, k: nat)
    requires k <= |txs|
    ensures TotalSize(size, txs[k..]) <= TotalSize(size, txs)
  {
    if k == 0 {
      assert txs[0..] == txs;
    } else {
      SuffixSmaller(size, txs, k - 1);
      DropOne(size, txs, k - 1);
    }
  }

  // ---- interleavings ----

  /** Where a P2P transaction handler stands between its two lock sections. */
  datatype Handler = Received(tx: Tx) | Unseen(tx: Tx) | Verified(tx: Tx) | Finished

  /** After an abort inside the lock every later locking aborts too. */
  datatype System = System(pool: Pool, handlers: map<nat, Handler>, poisoned: bool)

  /** One lock section, or one unlocked stretch of a handler. `Post` is an HTTP submission whose own checks passed. */
  datatype Event =
    | Receive(id: nat, tx: Tx)
    | CheckSeen(id: nat)
    | VerifySignatures(id: nat)
    | Finish(id: nat, now: int, later: int)
    | Post(tx: Tx, now: int)
    | Confirm(txids: set<string>)
    | Forget(now: int)

  predicate Enabled(s: System, e: Event) {
    match e
    case Receive(id, _) => id !in s.handlers
    case CheckSeen(id) => !s.poisoned && id in s.handlers && s.handlers[id].Received?
    case VerifySignatures(id) => id in s.handlers && s.handlers[id].Unseen?
    case Finish(id, _, _) => !s.poisoned && id in s.handlers && s.handlers[id].Verified?
    case _ => !s.poisoned
  }

  function FinishHandler(size: Tx -> nat, pool: Pool, tx: Tx, now: int, later: int): (r: Enforced) {
    match Admitted(pool, tx, now)
    case None => Enforced(pool, false)
    case Some(p) => Enforce(size, p, later)
  }

  function Step(env: Env, s: System, e: Event): (s': System)
    requires Enabled(s, e)
  {
    match e
    case Receive(id, tx) => s.(handlers := s.handlers[id := Received(tx)])
    case CheckSeen(id) =>
      var tx := s.handlers[id].tx;
      s.(handlers := s.handlers[id := if tx.txid in s.pool.seen then Finished else Unseen(tx)])
    case VerifySignatures(id) =>
      var tx := s.handlers[id].tx;
      s.(handlers := s.handlers[id := if env.signaturesVerify(tx) then Verified(tx) else Finished])
    case Finish(id, now, later) =>
      var r := FinishHandler(env.encodedSize, s.pool, s.handlers[id].tx, now, later);
      System(r.pool, s.handlers[id := Finished], r.aborted)
    case Post(tx, now) =>
      if !env.signaturesVerify(tx) then s
      else
        var r := Admitted(s.pool, tx, now);
        if r.None? then s else s.(pool := r.value)
    case Confirm(txids) => s.(pool := Confirmed(s.pool, txids))
    case Forget(now) => s.(pool := Forgotten(s.pool, now))
  }

  ghost predicate IsRun(env: Env, states: seq<System>, es: seq<Event>) {
    && |states| == |es| + 1
    && states[0] == System(Pool([], map[]), map[], false)
    && forall k :: 0 <= k < |es| ==> Enabled(states[k], es[k]) && states[k + 1] == Step(env, states[k], es[k])
  }

  ghost predicate AllVerified(env: Env, txs: seq<Tx>) {
    forall tx :: tx in txs ==> env.signaturesVerify(tx)
  }

  /** Pending transactions do not clash and are properly signed; so is what a handler is about to add. */
  ghost predicate Inv(env: Env, s: System) {
    && Disjoint(s.pool.pending) && AllVerified(env, s.pool.pending)
    && forall id :: id in s.handlers && s.handlers[id].Verified? ==> env.signaturesVerify(s.handlers[id].tx)
  }

  lemma KeepVerified(env: Env, txs: seq<Tx>, f: Tx -> bool)
    requires AllVerified(env, txs)
    ensures AllVerified(env, Keep(txs, f))
  {
    forall tx | tx in Keep(txs, f)
      ensures env.signaturesVerify(tx)
    {
      KeepMembers(txs, f, tx);
    }
  }

  lemma EnforceVerified(env: Env, pool: Pool, now: int)
    requires AllVerified(env, pool.pending)
    ensures AllVerified(env, Enforce(env.encodedSize, pool, now).pool.pending)
  {
    var kept := Unexpired(pool.pending, now);
    KeepVerified(env, pool.pending, Recent(now));
    var sorted := SortBy(ByRate(env.encodedSize), kept);
    SortPermutes(ByRate(env.encodedSize), kept);
    forall tx | tx in sorted
      ensures tx in kept
    {
      assert tx in multiset(sorted);
    }
  }

  lemma FinishKeeps(env: Env, pool: Pool, tx: Tx, now: int, later: int)
    requires Disjoint(pool.pending) && AllVerified(env, pool.pending) && env.signaturesVerify(tx)
    ensures var r := FinishHandler(env.encodedSize, pool, tx, now, later).pool;
      Disjoint(r.pending) && AllVerified(env, r.pending)
  {
    if Admitted(pool, tx, now).Some? {
      AdmittedKeeps(pool, tx, now);
      EnforceKeeps(env.encodedSize, Admitted(pool, tx, now).value, later);
      EnforceVerified(env, Admitted(pool, tx, now).value, later);
    }
  }

  lemma StepKeeps(env: Env, s: System, e: Event)
    requires Enabled(s, e) && Inv(env, s)
    ensures Inv(env, Step(env, s, e))
  {
    match e
    case Finish(id, now, later) => FinishKeeps(env, s.pool, s.handlers[id].tx, now, later);
    case Post(tx, now) =>
      if Admitted(s.pool, tx, now).Some? {
        AdmittedKeeps(s.pool, tx, now);
      }
    case Confirm(txids) =>
      KeepDisjoint(s.pool.pending, NotAmong(txids));
      KeepVerified(env, s.pool.pending, NotAmong(txids));
    case _ =>
  }

  /** In every interleaving of handlers, submissions, confirmations, clean-ups and evictions, no two pending
      transactions ever spend a common output, and all are properly signed. */
  lemma {:induction false} RunKeepsDisjoint(env: Env, states: seq<System>, es: seq<Event>, k: nat)
    requires IsRun(env, states, es) && k <= |es|
    ensures Inv(env, states[k])
  {
    if k > 0 {
      RunKeepsDisjoint(env, states, es, k - 1);
      StepKeeps(env, states[k - 1], es[k - 1]);
    }
  }

  /** A handler whose transaction is already remembered at its first lock section is over: it never comes to add it. */
  lemma {:induction false} SeenIsIgnored(env: Env, states: seq<System>, es: seq<Event>, k: nat, m: nat, id: nat)
    requires IsRun(env, states, es) && k < m <= |es| && es[k] == CheckSeen(id)
    requires id in states[k].handlers && states[k].handlers[id].Received?
    requires states[k].handlers[id].tx.txid in states[k].pool.seen
    ensures id in states[m].handlers && states[m].handlers[id] == Finished
    decreases m
  {
    if m == k + 1 {
      assert states[k + 1] == Step(env, states[k], es[k]);
    } else {
      SeenIsIgnored(env, states, es, k, m - 1, id);
      assert Enabled(states[m - 1], es[m - 1]) && states[m - 1 + 1] == Step(env, states[m - 1], es[m - 1]);
    }
  }
}
