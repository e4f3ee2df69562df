/** The mining pool's share window and the crediting of found blocks to the miners in it. */
module Pplns {
  import opened Seqs
  import opened Bytes

  datatype Share = Share(miner: string, worker: string, difficulty: nat, timestamp: int, job: string)

  datatype FoundBlock = FoundBlock(height: nat, hash: string, timestamp: int, reward: nat, finder: string,
                                   sharesInWindow: nat)

  /** An address and the amount credited to it. */
  type Credit = (string, nat)

  datatype Tracker = Tracker(recent: seq<Share>, windowSize: nat, found: seq<FoundBlock>, balances: map<string, nat>)

  // ---- the window ----

  function LastOf<T>(s: seq<T>, n: nat): (r: seq<T>) {
    if |s| > n then s[|s| - n..] else s
  }

  lemma LastOfPush<T>(s: seq<T>, x: T, n: nat)
    ensures LastOf(LastOf(s, n) + [x], n) == LastOf(s + [x], n)
  {
  }

  lemma LastOfDrop<T>(s: seq<T>, n: nat)
    requires |s| > n
    ensures LastOf(s[1..], n) == LastOf(s, n)
  {
  }

  function AddShare(t: Tracker, s: Share): (t': Tracker) {
    t.(recent := LastOf(t.recent + [s], t.windowSize))
  }

  // ---- credits of one block ----

  function Count(shares: seq<Share>, a: string): (n: nat)
    ensures n <= |shares|
  {
    if shares == [] then 0
    else Count(shares[..|shares| - 1], a) + if shares[|shares| - 1].miner == a then 1 else 0
  }

  /** The part of d that the address has earned, rounded down. */
  function Due(d: nat, shares: seq<Share>, a: string): (c: nat)
    requires shares != []
  {
    d * Count(shares, a) / |shares|
  }

  ghost predicate NoRepeats<T(!new)>(s: seq<T>) {
    forall i, j :: 0 <= i < j < |s| ==> s[i] != s[j]
  }

  /** One of the orders in which a hash map may list the miners of the window. */
  ghost predicate Lists(order: seq<string>, shares: seq<Share>) {
    NoRepeats(order) && forall a :: a in order <==> Count(shares, a) > 0
  }

  /** Nobody is credited nothing. */
  function DueList(d: nat, shares: seq<Share>, order: seq<string>): (cs: seq<Credit>)
    requires shares != []
  {
    if order == [] then []
    else
      var a := order[|order| - 1];
      DueList(d, shares, order[..|order| - 1]) + if Due(d, shares, a) > 0 then [(a, Due(d, shares, a))] else []
  }

  lemma DueAppended(d: nat, shares: seq<Share>, order: seq<string>, a: string)
    requires shares != []
    ensures var credit := d * Count(shares, a) / |shares|;
      DueList(d, shares, order + [a]) == DueList(d, shares, order) + if credit > 0 then [(a, credit)] else []
  {
    assert (order + [a])[..|order|] == order;
  }

  /** With no shares in the window the finder gets everything. */
  function CreditsFor(d: nat, shares: seq<Share>, finder: string, order: seq<string>): (cs: seq<Credit>) {
    if shares == [] then [(finder, d)] else DueList(d, shares, order)
  }

  function Sum(cs: seq<Credit>): (n: nat) {
    if cs == [] then 0 else Sum(cs[..|cs| - 1]) + cs[|cs| - 1].1
  }

  lemma {:induction false} SumJoin(a: seq<Credit>, b: seq<Credit>)
    ensures Sum(a + b) == Sum(a) + Sum(b)
  {
    if b == [] {
      assert a + b == a;
    } else {
      SumJoin(a, b[..|b| - 1]);
      DropLastOfJoin(a, b);
    }
  }

  /** Shares held by the listed miners together. */
  function Held(shares: seq<Share>, order: seq<string>): (n: nat) {
    if order == [] then 0 else Held(shares, order[..|order| - 1]) + Count(shares, order[|order| - 1])
  }

  lemma {:induction false} HeldExtends(shares: seq<Share>, s: Share, order: seq<string>)
    requires NoRepeats(order)
    ensures Held(shares + [s], order) == Held(shares, order) + if s.miner in order then 1 else 0
  {
    if order != [] {
      var front, last := order[..|order| - 1], order[|order| - 1];
      HeldExtends(shares, s, front);
      assert (shares + [s])[..|shares|] == shares;
      assert order == front + [last];
      assert s.miner in order <==> s.miner in front || s.miner == last;
      assert last !in front;
    }
  }

  lemma {:induction false} HeldByNobody(order: seq<string>)
    ensures Held([], order) == 0
  {
    if order != [] {
      HeldByNobody(order[..|order| - 1]);
    }
  }

  lemma {:induction false} HeldByAll(shares: seq<Share>, order: seq<string>)
    requires NoRepeats(order) && forall i :: 0 <= i < |shares| ==> shares[i].miner in order
    ensures Held(shares, order) == |shares|
  {
    if shares == [] {
      HeldByNobody(order);
    } else {
      var front, last := shares[..|shares| - 1], shares[|shares| - 1];
      HeldByAll(front, order);
      HeldExtends(front, last, order);
      assert shares == front + [last];
    }
  }

  lemma {:induction false} ShareCounts(shares: seq<Share>, i: nat)
    requires i < |shares|
    ensures Count(shares, shares[i].miner) > 0
  {
    if i < |shares| - 1 {
      ShareCounts(shares[..|shares| - 1], i);
    }
  }

  /** Paying `paid` for `held` of n shares of d has lost less than one unit for each of k miners. */
  ghost predicate Close(n: nat, paid: nat, d: nat, held: nat, k: nat)
    requires n > 0
  {
    n * paid <= d * held <= n * paid + (n - 1) * k
  }

  lemma CloseToStart(n: nat, d: nat)
    requires n > 0
    ensures Close(n, 0, d, 0, 0)
  {
  }

  /** One miner's rounding loss is below one unit. */
  lemma DueIsClose(d: nat, shares: seq<Share>, a: string)
    requires shares != []
    ensures Close(|shares|, Due(d, shares, a), d, Count(shares, a), 1)
  {
    FloorGap(d * Count(shares, a), |shares|);
  }

  lemma FloorGap(x: nat, n: nat)
    requires n > 0
    ensures n * (x / n) <= x <= n * (x / n) + (n - 1) * 1
  {
  }

  lemma Gather(n: nat, paid: nat, c: nat, d: nat, held: nat, count: nat, k: nat)
    requires n > 0 && Close(n, paid, d, held, k) && Close(n, c, d, count, 1)
    ensures Close(n, paid + c, d, held + count, k + 1)
  {
    assert n * (paid + c) == n * paid + n * c;
    assert d * (held + count) == d * held + d * count;
    assert (n - 1) * (k + 1) == (n - 1) * k + (n - 1);
  }

  lemma {:induction false} PartialTotal(d: nat, shares: seq<Share>, order: seq<string>)
    requires shares != []
    ensures Close(|shares|, Sum(DueList(d, shares, order)), d, Held(shares, order), |order|)
  {
    var n := |shares|;
    if order == [] {
      CloseToStart(n, d);
    } else {
      var front, a := order[..|order| - 1], order[|order| - 1];
      PartialTotal(d, shares, front);
      DueIsClose(d, shares, a);
      DueNext(d, shares, order);
      Gather(n, Sum(DueList(d, shares, front)), Due(d, shares, a), d, Held(shares, front), Count(shares, a), |front|);
    }
  }

  lemma DueNext(d: nat, shares: seq<Share>, order: seq<string>)
    requires shares != [] && order != []
    ensures Sum(DueList(d, shares, order))
      == Sum(DueList(d, shares, order[..|order| - 1])) + Due(d, shares, order[|order| - 1])
  {
    var a := order[|order| - 1];
    var c := Due(d, shares, a);
    SumJoin(DueList(d, shares, order[..|order| - 1]), if c > 0 then [(a, c)] else []);
    SumOne(a, c);
  }

  lemma SumOne(a: string, c: nat)
    ensures Sum(if c > 0 then [(a, c)] else []) == c
  {
    if c > 0 {
      assert [(a, c)][..0] == [];
      assert Sum([(a, c)]) == Sum([(a, c)][..0]) + c;
    }
  }

  /** One block's credits never exceed what is to be distributed, and what rounding leaves over is less than
      one unit per distinct miner. */
  lemma CreditsTotal(d: nat, shares: seq<Share>, finder: string, order: seq<string>)
    requires Lists(order, shares)
    ensures var paid := Sum(CreditsFor(d, shares, finder, order));
      paid <= d && (shares == [] ==> paid == d) && (shares != [] ==> d - paid < |order|)
  {
    if shares == [] {
      assert [(finder, d)][..0] == [];
      assert Sum([(finder, d)]) == Sum([(finder, d)][..0]) + d;
    } else {
      forall i | 0 <= i < |shares|
        ensures shares[i].miner in order
      {
        ShareCounts(shares, i);
      }
      HeldByAll(shares, order);
      PartialTotal(d, shares, order);
      assert order != [] by {
        ShareCounts(shares, 0);
      }
      Cancel(|shares|, Sum(DueList(d, shares, order)), d, |order|);
    }
  }

  lemma Cancel(n: nat, paid: nat, d: nat, k: nat)
    requires n > 0 && k > 0
    requires Close(n, paid, d, n, k)
    ensures paid <= d < paid + k
  {
    if paid > d {
      MulLe(d + 1, paid, n);
    }
    if d >= paid + k {
      MulLe(paid + k, d, n);
      Expand(n, paid, k);
    }
  }

  lemma Expand(n: nat, paid: nat, k: nat)
    requires n > 0
    ensures (paid + k) * n == n * paid + (n - 1) * k + k
  {
  }

  // ---- balances ----

  function Owed(balances: map<string, nat>, a: string): (n: nat) {
    if a in balances then balances[a] else 0
  }

  function PutCredit(balances: map<string, nat>, c: Credit): (m: map<string, nat>) {
    balances[c.0 := SaturatingAdd(Owed(balances, c.0), c.1)]
  }

  function PutCredits(balances: map<string, nat>, cs: seq<Credit>): (m: map<string, nat>) {
    if cs == [] then balances else PutCredit(PutCredits(balances, cs[..|cs| - 1]), cs[|cs| - 1])
  }

  lemma {:induction false} PutCreditsJoin(balances: map<string, nat>, a: seq<Credit>, b: seq<Credit>)
    ensures PutCredits(balances, a + b) == PutCredits(PutCredits(balances, a), b)
  {
    if b == [] {
      assert a + b == a;
    } else {
      PutCreditsJoin(balances, a, b[..|b| - 1]);
      DropLastOfJoin(a, b);
    }
  }

  /** All that a list of credits gives one address. */
  function SumTo(cs: seq<Credit>, a: string): (n: nat) {
    if cs == [] then 0 else SumTo(cs[..|cs| - 1], a) + if cs[|cs| - 1].0 == a then cs[|cs| - 1].1 else 0
  }

  lemma {:induction false} SumToJoin(x: seq<Credit>, y: seq<Credit>, a: string)
    ensures SumTo(x + y, a) == SumTo(x, a) + SumTo(y, a)
  {
    if y == [] {
      assert x + y == x;
    } else {
      SumToJoin(x, y[..|y| - 1], a);
      DropLastOfJoin(x, y);
    }
  }

  predicate Mentions(cs: seq<Credit>, a: string) {
    cs != [] && (Mentions(cs[..|cs| - 1], a) || cs[|cs| - 1].0 == a)
  }

  /** Saturating step by step is saturating once. */
  lemma {:induction false} OwedAfter(balances: map<string, nat>, cs: seq<Credit>, a: string)
    requires Owed(balances, a) < U256_BOUND
    ensures Owed(PutCredits(balances, cs), a) == SaturatingAdd(Owed(balances, a), SumTo(cs, a))
    ensures a in PutCredits(balances, cs) <==> a in balances || Mentions(cs, a)
  {
    if cs != [] {
      OwedAfter(balances, cs[..|cs| - 1], a);
    }
  }

  /** A list with one more entry at the end. */
  lemma OneMoreCredit(cs: seq<Credit>, c: Credit, a: string)
    ensures SumTo(cs + [c], a) == SumTo(cs, a) + if c.0 == a then c.1 else 0
    ensures Mentions(cs + [c], a) <==> Mentions(cs, a) || c.0 == a
  {
    assert (cs + [c])[..|cs|] == cs;
  }

  lemma LastIsNew(order: seq<string>, a: string)
    requires order != [] && NoRepeats(order)
    ensures NoRepeats(order[..|order| - 1]) && order[|order| - 1] !in order[..|order| - 1]
    ensures a in order <==> a in order[..|order| - 1] || a == order[|order| - 1]
  {
    assert order == order[..|order| - 1] + [order[|order| - 1]];
  }

  lemma {:induction false} DueOnce(d: nat, shares: seq<Share>, order: seq<string>, a: string)
    requires shares != [] && NoRepeats(order)
    ensures SumTo(DueList(d, shares, order), a) == if a in order then Due(d, shares, a) else 0
    ensures Mentions(DueList(d, shares, order), a) <==> a in order && Due(d, shares, a) > 0
  {
    if order != [] {
      var front, last := order[..|order| - 1], order[|order| - 1];
      LastIsNew(order, a);
      DueOnce(d, shares, front, a);
      var before, c := DueList(d, shares, front), Due(d, shares, last);
      if c > 0 {
        OneMoreCredit(before, (last, c), a);
      } else {
        assert before + [] == before;
      }
    }
  }

  lemma SameEntry(balances: map<string, nat>, d: nat, shares: seq<Share>, o1: seq<string>, o2: seq<string>, a: string)
    requires Lists(o1, shares) && Lists(o2, shares) && shares != [] && Owed(balances, a) < U256_BOUND
    ensures var m1, m2 := PutCredits(balances, DueList(d, shares, o1)), PutCredits(balances, DueList(d, shares, o2));
      (a in m1 <==> a in m2) && Owed(m1, a) == Owed(m2, a)
  {
    DueOnce(d, shares, o1, a);
    DueOnce(d, shares, o2, a);
    assert a in o1 <==> a in o2;
    OwedAfter(balances, DueList(d, shares, o1), a);
    OwedAfter(balances, DueList(d, shares, o2), a);
  }

  lemma SameMap(m1: map<string, nat>, m2: map<string, nat>)
    requires forall a :: (a in m1 <==> a in m2) && Owed(m1, a) == Owed(m2, a)
    ensures m1 == m2
  {
    assert forall a :: a in m1 ==> m1[a] == Owed(m1, a) && m2[a] == Owed(m2, a);
  }

  /** The order in which the hash map lists the miners does not matter to the balances. */
  lemma OrderIrrelevant(balances: map<string, nat>, d: nat, shares: seq<Share>, finder: string, o1: seq<string>,
                        o2: seq<string>)
    requires Lists(o1, shares) && Lists(o2, shares)
    requires forall a :: a in balances ==> balances[a] < U256_BOUND
    ensures PutCredits(balances, CreditsFor(d, shares, finder, o1))
      == PutCredits(balances, CreditsFor(d, shares, finder, o2))
  {
    if shares != [] {
      var m1, m2 := PutCredits(balances, DueList(d, shares, o1)), PutCredits(balances, DueList(d, shares, o2));
      forall a
        ensures (a in m1 <==> a in m2) && Owed(m1, a) == Owed(m2, a)
      {
        SameEntry(balances, d, shares, o1, o2, a);
      }
      SameMap(m1, m2);
    }
  }

  // ---- one found block ----

  predicate Known(found: seq<FoundBlock>, hash: string) {
    exists i :: 0 <= i < |found| && found[i].hash == hash
  }

  /** The fee is any number; taking it off stops at zero. */
  function Distributable(reward: nat, fee: nat): (d: nat)
    ensures d <= reward
  {
    if fee <= reward then reward - fee else 0
  }

  datatype Find = Find(reward: nat, fee: nat, finder: string, height: nat, hash: string, timestamp: int)

  function CreditsOf(t: Tracker, f: Find, order: seq<string>): (cs: seq<Credit>) {
    if Known(t.found, f.hash) then []
    else CreditsFor(Distributable(f.reward, f.fee), t.recent, f.finder, order)
  }

  function Distribute(t: Tracker, f: Find, order: seq<string>): (t': Tracker) {
    if Known(t.found, f.hash) then t
    else t.(found := t.found + [FoundBlock(f.height, f.hash, f.timestamp, f.reward, f.finder, |t.recent|)],
            balances := PutCredits(t.balances, CreditsOf(t, f, order)))
  }

  const REWARD_BOUND: nat := 0x1_0000_0000_0000_0000_0000_0000_0000_0000

  class ShareTracker {
    var recentShares: seq<Share>
    var windowSize: nat
    var foundBlocks: seq<FoundBlock>
    var balances: map<string, nat>

    ghost function Current(): (t: Tracker)
      reads this
    {
      Tracker(recentShares, windowSize, foundBlocks, balances)
    }

    constructor (windowSize: nat)
      ensures Current() == Tracker([], windowSize, [], map[])
    {
      recentShares := [];
      this.windowSize := windowSize;
      foundBlocks := [];
      balances := map[];
    }

    /** Record an accepted share and trim the window. */
    method Add(share: Share)
      modifies this`recentShares
      ensures Current() == AddShare(old(Current()), share)
    {
      recentShares := recentShares + [share];
      while |recentShares| > windowSize
        invariant LastOf(recentShares, windowSize) == LastOf(old(recentShares) + [share], windowSize)
      {
        LastOfDrop(recentShares, windowSize);
        recentShares := recentShares[1..];
      }
    }

    /** Shares per miner in the window. */
    method CountShares() returns (counts: map<string, nat>)
      ensures forall a :: a in counts <==> Count(recentShares, a) > 0
      ensures forall a :: a in counts ==> counts[a] == Count(recentShares, a)
    {
      counts := map[];
      for i := 0 to |recentShares|
        invariant forall a :: a in counts <==> Count(recentShares[..i], a) > 0
        invariant forall a :: a in counts ==> counts[a] == Count(recentShares[..i], a)
      {
        NextPrefix(recentShares, i);
        var miner := recentShares[i].miner;
        counts := counts[miner := (if miner in counts then counts[miner] else 0) + 1];
      }
      WholePrefix(recentShares);
    }

    method DistributePplns(f: Find) returns (credits: seq<Credit>)
      requires f.reward < REWARD_BOUND
      modifies this`foundBlocks, this`balances
      ensures Known(old(foundBlocks), f.hash) ==> credits == [] && Current() == old(Current())
      ensures !Known(old(foundBlocks), f.hash) ==> (exists order ::
        Lists(order, recentShares)
        && credits == CreditsOf(old(Current()), f, order) && Current() == Distribute(old(Current()), f, order))
    {
      if Known(foundBlocks, f.hash) {
        return [];
      }
      var counts := CountShares();
      var distributable := Distributable(f.reward, f.fee);
      ghost var order := [];
      if |recentShares| == 0 {
        credits := [(f.finder, distributable)];
      } else {
        credits := Divide(distributable, counts);
        order :| Lists(order, recentShares) && credits == DueList(distributable, recentShares, order);
      }
      CreditAll(credits);
      foundBlocks := foundBlocks
        + [FoundBlock(f.height, f.hash, f.timestamp, f.reward, f.finder, |recentShares|)];
      assert Lists(order, recentShares);
    }

    /** Go through the miners in whatever order the hash map yields them. */
    method Divide(distributable: nat, counts: map<string, nat>) returns (credits: seq<Credit>)
      requires recentShares != []
      requires forall a :: a in counts <==> Count(recentShares, a) > 0
      requires forall a :: a in counts ==> counts[a] == Count(recentShares, a)
      ensures exists order :: Lists(order, recentShares) && credits == DueList(distributable, recentShares, order)
    {
      ghost var order := [];
      credits := [];
      var rest := counts.Keys;
      while rest != {}
        invariant rest <= counts.Keys && NoRepeats(order)
        invariant forall a :: a in order <==> a in counts && a !in rest
        invariant credits == DueList(distributable, recentShares, order)
        decreases |rest|
      {
        var a :| a in rest;
        OneMore(order, a);
        DueAppended(distributable, recentShares, order, a);
        var credit := distributable * counts[a] / |recentShares|;
        if credit > 0 {
          credits := credits + [(a, credit)];
        }
        order := order + [a];
        rest := rest - {a};
      }
      assert Lists(order, recentShares);
    }

    method CreditAll(credits: seq<Credit>)
      modifies this`balances
      ensures balances == PutCredits(old(balances), credits)
    {
      for i := 0 to |credits|
        invariant balances == PutCredits(old(balances), credits[..i])
      {
        NextPrefix(credits, i);
        balances := PutCredit(balances, credits[i]);
      }
      WholePrefix(credits);
    }
  }

  lemma OneMore(order: seq<string>, a: string)
    requires NoRepeats(order) && a !in order
    ensures NoRepeats(order + [a]) && (order + [a])[..|order|] == order
  {
  }

  // ---- runs ----

  datatype Event = Accepted(share: Share) | Found(find: Find, order: seq<string>)

  function Step(t: Tracker, e: Event): (t': Tracker) {
    match e
    case Accepted(s) => AddShare(t, s)
    case Found(f, order) => Distribute(t, f, order)
  }

  function Run(w: nat, es: seq<Event>): (t: Tracker) {
    if es == [] then Tracker([], w, [], map[]) else Step(Run(w, es[..|es| - 1]), es[|es| - 1])
  }

  /** Each found block is credited in an order that the window of the moment allows. */
  ghost predicate IsRun(w: nat, es: seq<Event>) {
    es == []
    || (IsRun(w, es[..|es| - 1])
        && (es[|es| - 1].Found? ==> Lists(es[|es| - 1].order, Run(w, es[..|es| - 1]).recent)))
  }

  function SharesOf(es: seq<Event>): (ss: seq<Share>) {
    if es == [] then []
    else SharesOf(es[..|es| - 1]) + if es[|es| - 1].Accepted? then [es[|es| - 1].share] else []
  }

  /** Every credit made in a run. */
  function Log(w: nat, es: seq<Event>): (cs: seq<Credit>) {
    if es == [] then []
    else
      var front, e := es[..|es| - 1], es[|es| - 1];
      Log(w, front) + if e.Found? then CreditsOf(Run(w, front), e.find, e.order) else []
  }

  /** The first report of every block hash. */
  function FirstFinds(es: seq<Event>): (fs: seq<Find>) {
    if es == [] then []
    else
      var fs, e := FirstFinds(es[..|es| - 1]), es[|es| - 1];
      if e.Found? && !Reported(fs, e.find.hash) then fs + [e.find] else fs
  }

  predicate Reported(fs: seq<Find>, hash: string) {
    exists i :: 0 <= i < |fs| && fs[i].hash == hash
  }

  function Rewards(fs: seq<Find>): (n: nat) {
    if fs == [] then 0 else Rewards(fs[..|fs| - 1]) + fs[|fs| - 1].reward
  }

  lemma WindowAfter(t: Tracker, e: Event, before: seq<Share>)
    requires t.recent == LastOf(before, t.windowSize)
    ensures var after := before + if e.Accepted? then [e.share] else [];
      Step(t, e).windowSize == t.windowSize && Step(t, e).recent == LastOf(after, t.windowSize)
  {
    if e.Accepted? {
      LastOfPush(before, e.share, t.windowSize);
    } else {
      assert before + [] == before;
    }
  }

  /** The window is always the last W accepted shares, or all of them while there are fewer. */
  lemma {:induction false} WindowIsNewest(w: nat, es: seq<Event>)
    ensures Run(w, es).windowSize == w && Run(w, es).recent == LastOf(SharesOf(es), w)
    ensures var all := SharesOf(es); Run(w, es).recent == all[if |all| <= w then 0 else |all| - w..]
  {
    if es != [] {
      var front, e := es[..|es| - 1], es[|es| - 1];
      WindowIsNewest(w, front);
      WindowAfter(Run(w, front), e, SharesOf(front));
    }
  }

  ghost predicate Records(found: seq<FoundBlock>, fs: seq<Find>) {
    |found| == |fs| && forall i :: 0 <= i < |fs| ==>
      found[i].hash == fs[i].hash && found[i].reward == fs[i].reward && found[i].finder == fs[i].finder
      && found[i].height == fs[i].height && found[i].timestamp == fs[i].timestamp
  }

  lemma SameHashes(found: seq<FoundBlock>, fs: seq<Find>, hash: string)
    requires Records(found, fs)
    ensures Known(found, hash) <==> Reported(fs, hash)
  {
    if Known(found, hash) {
      var i :| 0 <= i < |found| && found[i].hash == hash;
      assert fs[i].hash == hash;
    }
    if Reported(fs, hash) {
      var i :| 0 <= i < |fs| && fs[i].hash == hash;
      assert found[i].hash == hash;
    }
  }

  /** The pool's record of found blocks is the first report of every hash, in order. */
  lemma {:induction false} FoundAreFirst(w: nat, es: seq<Event>)
    ensures Records(Run(w, es).found, FirstFinds(es))
  {
    if es != [] {
      var front, e := es[..|es| - 1], es[|es| - 1];
      FoundAreFirst(w, front);
      if e.Found? {
        SameHashes(Run(w, front).found, FirstFinds(front), e.find.hash);
      }
    }
  }

  /** The credits of a whole run never exceed the rewards of the distinct blocks found. */
  lemma {:induction false} CreditsWithinRewards(w: nat, es: seq<Event>)
    requires IsRun(w, es)
    ensures Sum(Log(w, es)) <= Rewards(FirstFinds(es))
  {
    if es != [] {
      var front, e := es[..|es| - 1], es[|es| - 1];
      CreditsWithinRewards(w, front);
      if e.Found? {
        FoundAreFirst(w, front);
        OneFind(Run(w, front), FirstFinds(front), e.find, e.order);
        SumJoin(Log(w, front), CreditsOf(Run(w, front), e.find, e.order));
      } else {
        assert Log(w, es) == Log(w, front);
      }
    }
  }

  lemma OneFind(t: Tracker, fs: seq<Find>, f: Find, order: seq<string>)
    requires Lists(order, t.recent) && Records(t.found, fs)
    ensures var fs' := if Reported(fs, f.hash) then fs else fs + [f];
      Sum(CreditsOf(t, f, order)) + Rewards(fs) <= Rewards(fs')
  {
    SameHashes(t.found, fs, f.hash);
    if !Reported(fs, f.hash) {
      CreditsTotal(Distributable(f.reward, f.fee), t.recent, f.finder, order);
      assert (fs + [f])[..|fs|] == fs;
    }
  }

  /** The reward of a new block is what its credits and the fee come to, and less than one unit for each miner in the
      window (nothing if there is none) that rounding leaves over; a fee above the reward leaves nothing to credit. */
  lemma RewardIsAccounted(t: Tracker, f: Find, order: seq<string>)
    requires Lists(order, t.recent) && forall i :: 0 <= i < |t.found| ==> t.found[i].hash != f.hash
    ensures var paid := Sum(CreditsOf(t, f, order));
      && (f.fee <= f.reward ==> paid + f.fee <= f.reward)
      && (f.fee <= f.reward ==> f.reward == paid + f.fee || f.reward - paid - f.fee < |order|)
      && (f.fee <= f.reward && t.recent == [] ==> f.reward == paid + f.fee)
      && (f.fee > f.reward ==> paid == 0)
  {
    CreditsTotal(Distributable(f.reward, f.fee), t.recent, f.finder, order);
  }

  /** A new block credits every miner with the floored part of the rest that his shares are of the window, and with an
      empty window the finder with all of it. */
  lemma EachIsCredited(t: Tracker, f: Find, order: seq<string>, a: string)
    requires Lists(order, t.recent) && (forall i :: 0 <= i < |t.found| ==> t.found[i].hash != f.hash)
    requires f.fee <= f.reward
    ensures var credit := SumTo(CreditsOf(t, f, order), a);
      && (t.recent != [] ==> credit == (f.reward - f.fee) * Count(t.recent, a) / |t.recent|)
      && (t.recent == [] ==> credit == if a == f.finder then f.reward - f.fee else 0)
  {
    if t.recent == [] {
      assert CreditsOf(t, f, order) == [(f.finder, f.reward - f.fee)];
      assert [(f.finder, f.reward - f.fee)][..0] == [];
    } else {
      DueOnce(f.reward - f.fee, t.recent, order, a);
    }
  }

  /** Each balance is exactly the sum of the address's credits, up to the largest U256. */
  lemma {:induction false} BalanceIsCredits(w: nat, es: seq<Event>, a: string)
    ensures Owed(Run(w, es).balances, a) == SaturatingAdd(0, SumTo(Log(w, es), a))
  {
    if es != [] {
      var front, e := es[..|es| - 1], es[|es| - 1];
      BalanceIsCredits(w, front, a);
      if e.Found? {
        var t, cs := Run(w, front), CreditsOf(Run(w, front), e.find, e.order);
        OwedAfter(t.balances, cs, a);
        SumToJoin(Log(w, front), cs, a);
      } else {
        assert Log(w, es) == Log(w, front);
      }
    }
  }

  /** What a list of addresses is owed together. */
  function OwedTo(balances: map<string, nat>, group: seq<string>): (n: nat) {
    if group == [] then 0 else OwedTo(balances, group[..|group| - 1]) + Owed(balances, group[|group| - 1])
  }

  /** No group of miners is ever owed more than the rewards of the distinct blocks found. */
  lemma GroupWithinRewards(w: nat, es: seq<Event>, group: seq<string>)
    requires IsRun(w, es) && NoRepeats(group)
    ensures OwedTo(Run(w, es).balances, group) <= Rewards(FirstFinds(es))
  {
    CreditsWithinRewards(w, es);
    GroupWithinLog(w, es, group);
    GroupWithinSum(Log(w, es), group);
  }

  function SumToAll(cs: seq<Credit>, group: seq<string>): (n: nat) {
    if group == [] then 0 else SumToAll(cs, group[..|group| - 1]) + SumTo(cs, group[|group| - 1])
  }

  lemma {:induction false} GroupWithinLog(w: nat, es: seq<Event>, group: seq<string>)
    ensures OwedTo(Run(w, es).balances, group) <= SumToAll(Log(w, es), group)
  {
    if group != [] {
      GroupWithinLog(w, es, group[..|group| - 1]);
      BalanceIsCredits(w, es, group[|group| - 1]);
    }
  }

  lemma {:induction false} GroupWithinSum(cs: seq<Credit>, group: seq<string>)
    requires NoRepeats(group)
    ensures SumToAll(cs, group) <= Sum(cs)
  {
    if cs == [] {
      GroupOfNone(group);
    } else {
      GroupWithinSum(cs[..|cs| - 1], group);
      GroupExtends(cs[..|cs| - 1], cs[|cs| - 1], group);
      assert cs == cs[..|cs| - 1] + [cs[|cs| - 1]];
    }
  }

  lemma {:induction false} GroupOfNone(group: seq<string>)
    ensures SumToAll([], group) == 0
  {
    if group != [] {
      GroupOfNone(group[..|group| - 1]);
    }
  }

  lemma {:induction false} GroupExtends(cs: seq<Credit>, c: Credit, group: seq<string>)
    requires NoRepeats(group)
    ensures SumToAll(cs + [c], group) == SumToAll(cs, group) + if c.0 in group then c.1 else 0
  {
    if group != [] {
      var front, last := group[..|group| - 1], group[|group| - 1];
      GroupExtends(cs, c, front);
      assert (cs + [c])[..|cs|] == cs;
      assert group == front + [last] && last !in front;
    }
  }
}
