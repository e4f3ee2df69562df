/** When enforcing the mempool limits aborts inside the lock, and what that does to the node. */
module Poisoning {
  import opened Domain
  import opened Bytes
  import opened Ledger
  import opened Mempool

  /** The fee estimate has no 64-bit value: the outputs overflow 256 bits, or the inputs exceed them by too much. */
  predicate Overflows(tx: Tx) {
    OutSum(tx.outputs) >= U256_BOUND || |tx.inputs| * INPUT_ESTIMATE >= OutSum(tx.outputs) + U64_BOUND
  }

  /** Enforcement aborts exactly when more than 10000 unexpired transactions are pending and one of them overflows. */
  lemma EnforceAbortsIff(size: Tx -> nat, pool: Pool, now: int)
    ensures var young := Unexpired(pool.pending, now);
      Enforce(size, pool, now).aborted
      <==> |young| > MAX_COUNT && exists i :: 0 <= i < |young| && Overflows(young[i])
  {
    var young := Unexpired(pool.pending, now);
    assert forall i :: 0 <= i < |young| ==> (FeeEstimate(young[i]).Some? <==> !Overflows(young[i]));
  }

  const HEAVY_ID := "yyyyyyyy"

  /** A transaction with n inputs and no outputs. */
  function Heavy(n: nat): (tx: Tx)
    ensures |tx.inputs| == n
  {
    Tx(HEAVY_ID, seq(n, v requires v >= 0 => Input(OutPoint(HEAVY_ID, v), "", None)), [], 0)
  }

  /** Inputs alone decide exactly up to eighteen: no such transaction overflows, whatever it pays out within 256 bits;
      from nineteen on some transaction does. */
  lemma InputsDecideIff(n: nat)
    ensures (forall tx: Tx :: |tx.inputs| == n && OutSum(tx.outputs) < U256_BOUND ==> !Overflows(tx)) <==> n <= 18
  {
    if n <= 18 {
      MulLe(n, 18, INPUT_ESTIMATE);
    } else {
      MulLe(19, n, INPUT_ESTIMATE);
      assert OutSum(Heavy(n).outputs) == 0 && Overflows(Heavy(n));
    }
  }

  // ---- over runs ----

  /** A lock section poisons the mutex exactly when it admits a P2P transaction and the enforcement after it aborts. */
  lemma StepPoisonsIff(env: Env, s: System, e: Event)
    requires Enabled(s, e) && !s.poisoned
    ensures Step(env, s, e).poisoned
      <==> e.Finish? && var r := Admitted(s.pool, s.handlers[e.id].tx, e.now);
           && r.Some? && var young := Unexpired(r.value.pending, e.later);
              |young| > MAX_COUNT && exists i :: 0 <= i < |young| && Overflows(young[i])
  {
    if e.Finish? {
      var r := Admitted(s.pool, s.handlers[e.id].tx, e.now);
      if r.Some? {
        EnforceAbortsIff(env.encodedSize, r.value, e.later);
      }
    }
  }

  /** After that the pool never changes again: no later lock section runs. */
  lemma {:induction false} PoisonFreezes(env: Env, states: seq<System>, es: seq<Event>, i: nat, j: nat)
    requires IsRun(env, states, es) && i <= j < |states| && states[i].poisoned
    ensures states[j].poisoned && states[j].pool == states[i].pool
  {
    if i < j {
      PoisonFreezes(env, states, es, i, j - 1);
      assert Enabled(states[j - 1], es[j - 1]);
    }
  }

  ghost predicate Light(s: System) {
    && !s.poisoned
    && (forall i :: 0 <= i < |s.pool.pending| ==> !Overflows(s.pool.pending[i]))
    && (forall id :: id in s.handlers && !s.handlers[id].Finished? ==> !Overflows(s.handlers[id].tx))
  }

  /** What the event submits, if anything, has an estimate. */
  predicate SubmitsLight(e: Event) { e.Receive? || e.Post? ==> !Overflows(e.tx) }

  lemma LightMembers(txs: seq<Tx>, some: seq<Tx>)
    requires forall i :: 0 <= i < |txs| ==> !Overflows(txs[i])
    requires forall tx :: tx in some ==> tx in txs
    ensures forall i :: 0 <= i < |some| ==> !Overflows(some[i])
  {
    forall i | 0 <= i < |some|
      ensures !Overflows(some[i])
    {
      assert some[i] in txs;
    }
  }

  lemma KeepLight(txs: seq<Tx>, f: Tx -> bool)
    requires forall i :: 0 <= i < |txs| ==> !Overflows(txs[i])
    ensures forall i :: 0 <= i < |Keep(txs, f)| ==> !Overflows(Keep(txs, f)[i])
  {
    forall tx | tx in Keep(txs, f)
      ensures tx in txs
    {
      KeepMembers(txs, f, tx);
    }
    LightMembers(txs, Keep(txs, f));
  }

  lemma EnforceLight(size: Tx -> nat, pool: Pool, now: int)
    requires forall i :: 0 <= i < |pool.pending| ==> !Overflows(pool.pending[i])
    ensures var r := Enforce(size, pool, now);
      !r.aborted && forall i :: 0 <= i < |r.pool.pending| ==> !Overflows(r.pool.pending[i])
  {
    var young := Unexpired(pool.pending, now);
    KeepLight(pool.pending, Recent(now));
    EnforceAbortsIff(size, pool, now);
    var sorted := SortBy(ByRate(size), young);
    SortPermutes(ByRate(size), young);
    forall tx | tx in sorted
      ensures tx in young
    {
      assert tx in multiset(sorted);
    }
    LightMembers(young, sorted);
  }

  lemma StepKeepsLight(env: Env, s: System, e: Event)
    requires Enabled(s, e) && Light(s) && SubmitsLight(e)
    ensures Light(Step(env, s, e))
  {
    match e
    case Finish(id, now, later) =>
      if Admitted(s.pool, s.handlers[id].tx, now).Some? {
        EnforceLight(env.encodedSize, Admitted(s.pool, s.handlers[id].tx, now).value, later);
      }
    case Confirm(txids) => KeepLight(s.pool.pending, NotAmong(txids));
    case _ =>
  }

  /** No run aborts while every transaction submitted to it has an estimate, and so in particular while none has more
      than eighteen inputs or an output total beyond 256 bits. */
  lemma {:induction false} LightRunsNeverAbort(env: Env, states: seq<System>, es: seq<Event>, k: nat)
    requires IsRun(env, states, es) && k < |states|
    requires forall i :: 0 <= i < |es| ==> SubmitsLight(es[i])
    ensures !states[k].poisoned && Light(states[k])
  {
    if k > 0 {
      LightRunsNeverAbort(env, states, es, k - 1);
      StepKeepsLight(env, states[k - 1], es[k - 1]);
    }
  }

  // ---- runs that fill the pool ----

  function Name(i: nat): (s: string) { seq(8 + i, _ => 'x') }

  /** An ordinary transaction with one input of its own. */
  function Plain(i: nat): (tx: Tx) { Tx(Name(i), [Input(OutPoint(Name(i), 0), "", None)], [], 0) }

  function Plains(n: nat): (txs: seq<Tx>)
    ensures |txs| == n && forall i :: 0 <= i < n ==> txs[i] == Plain(i)
  {
    seq(n, i requires i >= 0 => Plain(i))
  }

  function Names(n: nat): (ids: set<string>) { set i | 0 <= i < n :: Name(i) }

  function Filled(n: nat): (p: Pool) { Pool(Plains(n), map id | id in Names(n) :: 0) }

  lemma NewName(n: nat)
    ensures Name(n) !in Names(n) && HEAVY_ID !in Names(n)
  {
    forall i | 0 <= i < n
      ensures Name(i) != Name(n) && Name(i) != HEAVY_ID
    {
      assert |Name(i)| == 8 + i && |Name(n)| == 8 + n;
      assert |HEAVY_ID| == 8 && HEAVY_ID[7] == 'y' && (i == 0 ==> Name(i)[7] == 'x');
    }
  }

  lemma NoClash(n: nat, tx: Tx)
    requires tx == Plain(n) || tx == Heavy(19)
    ensures !Conflicts(Plains(n), tx)
  {
    NewName(n);
    forall i | 0 <= i < n
      ensures !Clash(Plains(n)[i], tx)
    {
      assert Name(i) in Names(n);
    }
  }

  lemma {:induction false} KeepsAll(txs: seq<Tx>, f: Tx -> bool)
    requires forall i :: 0 <= i < |txs| ==> f(txs[i])
    ensures Keep(txs, f) == txs
  {
    if txs != [] {
      KeepsAll(txs[..|txs| - 1], f);
    }
  }

  lemma ExtendRun(env: Env, states: seq<System>, es: seq<Event>, e: Event)
    requires IsRun(env, states, es) && Enabled(states[|es|], e)
    ensures IsRun(env, states + [Step(env, states[|es|], e)], es + [e])
  {
  }

  /** One P2P handler from start to finish. */
  lemma Deliver(env: Env, states: seq<System>, es: seq<Event>, id: nat, tx: Tx)
    returns (states': seq<System>, es': seq<Event>)
    requires IsRun(env, states, es) && env.signaturesVerify(tx)
    requires var s := states[|es|]; !s.poisoned && id !in s.handlers && tx.txid !in s.pool.seen
    ensures IsRun(env, states', es')
    ensures var s, r := states[|es|], FinishHandler(env.encodedSize, states[|es|].pool, tx, 0, 0);
      states'[|es'|] == System(r.pool, s.handlers[id := Finished], r.aborted)
  {
    ghost var s := states[|es|];
    states', es' := states, es;
    var todo := [Receive(id, tx), CheckSeen(id), VerifySignatures(id), Finish(id, 0, 0)];
    var via := [s, s.(handlers := s.handlers[id := Received(tx)]), s.(handlers := s.handlers[id := Unseen(tx)]),
                s.(handlers := s.handlers[id := Verified(tx)])];
    for i := 0 to 4
      invariant IsRun(env, states', es')
      invariant i < 4 ==> states'[|es'|] == via[i]
      invariant i == 4 ==> var r := FinishHandler(env.encodedSize, s.pool, tx, 0, 0);
        states'[|es'|] == System(r.pool, s.handlers[id := Finished], r.aborted)
    {
      ExtendRun(env, states', es', todo[i]);
      assert i < 3 ==> Step(env, via[i], todo[i]) == via[i + 1];
      states', es' := states' + [Step(env, states'[|es'|], todo[i])], es' + [todo[i]];
    }
  }

  lemma FillOne(size: Tx -> nat, n: nat)
    requires n < MAX_COUNT
    ensures FinishHandler(size, Filled(n), Plain(n), 0, 0) == Enforced(Filled(n + 1), false)
  {
    NewName(n);
    NoClash(n, Plain(n));
    assert Plains(n) + [Plain(n)] == Plains(n + 1);
    assert Names(n + 1) == Names(n) + {Name(n)};
    assert Filled(n).seen[Name(n) := 0] == Filled(n + 1).seen;
    KeepsAll(Plains(n + 1), Recent(0));
  }

  ghost predicate Reaches(env: Env, states: seq<System>, es: seq<Event>, n: nat) {
    && IsRun(env, states, es)
    && states[|es|].pool == Filled(n) && !states[|es|].poisoned
    && forall id :: id in states[|es|].handlers ==> id < n
  }

  lemma {:induction false} Fill(env: Env, n: nat) returns (states: seq<System>, es: seq<Event>)
    requires n <= MAX_COUNT && forall i: nat :: i < n ==> env.signaturesVerify(Plain(i))
    ensures Reaches(env, states, es, n)
  {
    if n == 0 {
      states, es := [System(Pool([], map[]), map[], false)], [];
      assert Plains(0) == [] && Names(0) == {};
    } else {
      states, es := Fill(env, n - 1);
      NewName(n - 1);
      FillOne(env.encodedSize, n - 1);
      states, es := Deliver(env, states, es, n - 1, Plain(n - 1));
    }
  }

  /** A run in which 10000 ordinary transactions and then one with nineteen inputs poison the mempool. */
  lemma PoisonedRun(env: Env) returns (states: seq<System>, es: seq<Event>)
    requires forall tx :: env.signaturesVerify(tx)
    ensures IsRun(env, states, es) && states[|es|].poisoned
  {
    states, es := Fill(env, MAX_COUNT);
    NewName(MAX_COUNT);
    NoClash(MAX_COUNT, Heavy(19));
    var txs := Plains(MAX_COUNT) + [Heavy(19)];
    KeepsAll(txs, Recent(0));
    assert OutSum(Heavy(19).outputs) == 0 && Overflows(txs[MAX_COUNT]);
    var p := Pool(txs, Filled(MAX_COUNT).seen[HEAVY_ID := 0]);
    assert Admitted(Filled(MAX_COUNT), Heavy(19), 0) == Some(p);
    EnforceAbortsIff(env.encodedSize, p, 0);
    states, es := Deliver(env, states, es, MAX_COUNT, Heavy(19));
  }

  lemma {:induction false} EvenSizes(size: Tx -> nat, txs: seq<Tx>, each: nat)
    requires forall tx :: size(tx) == each
    ensures TotalSize(size, txs) == |txs| * each
  {
    if txs != [] {
      EvenSizes(size, txs[1..], each);
    }
  }

  /** A run after which 10000 pending transactions take 300,010,000 bytes, and enforcement leaves every one of them. */
  lemma OversizedRun(env: Env) returns (states: seq<System>, es: seq<Event>)
    requires (forall tx :: env.signaturesVerify(tx)) && forall tx :: env.encodedSize(tx) == 30_001
    ensures IsRun(env, states, es)
    ensures var pool := states[|es|].pool;
      && |pool.pending| == MAX_COUNT && TotalSize(env.encodedSize, pool.pending) > MAX_BYTES
      && Enforce(env.encodedSize, pool, 0) == Enforced(pool, false)
  {
    states, es := Fill(env, MAX_COUNT);
    EvenSizes(env.encodedSize, Plains(MAX_COUNT), 30_001);
    KeepsAll(Plains(MAX_COUNT), Recent(0));
  }
}
