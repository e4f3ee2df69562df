/** How the node builds its write batches: loops that queue operations, and what committing them will do. */
module Batches {
  import opened Domain
  import opened Bytes
  import opened Rewards
  import opened Ledger
  import opened Seqs
  import opened Storage
  import opened TxRules
  import opened Consensus

  // ---- batches built by the transaction pass ----

  /** Queue the outputs of a transaction and remember them as spendable within the block. */
  method QueueOutputs(env: Env, ghost base: Store, batch: seq<Op>, made: UtxoSet, tx: Tx)
    returns (batch': seq<Op>, made': UtxoSet)
    ensures Commit(base, batch')
            == Commit(base, batch).(txs := Commit(base, batch).txs[tx.txid := tx],
                                    utxos := Commit(base, batch).utxos + Coins(env, tx))
    ensures made' == made + Coins(env, tx)
  {
    batch' := batch + [PutTx(tx)];
    CommitOne(base, batch, PutTx(tx));
    made' := made;
    ghost var start := Commit(base, batch');
    for v := 0 to |tx.outputs|
      invariant Commit(base, batch') == start.(utxos := PutCoins(env, start.utxos, tx, v))
      invariant made' == PutCoins(env, made, tx, v)
    {
      var p, c := OutPoint(tx.txid, v), Coin(env, tx.outputs[v]);
      CommitOne(base, batch', PutUtxo(p, c));
      batch' := batch' + [PutUtxo(p, c)];
      made' := made'[p := c];
    }
    PutAllCoins(env, start.utxos, tx);
    PutAllCoins(env, made, tx);
  }

  datatype Pass = Pass(batch: seq<Op>, made: UtxoSet, sum: nat)

  /** Resolve one input: an output of this block, else the committed store, never the pending batch. */
  method QueueInput(env: Env, base: Store, pass: Pass, inp: Input) returns (r: Result<Pass>)
    ensures var t := TakeInput(env, base.utxos, Intake(Commit(base, pass.batch).utxos, pass.made, pass.sum), inp);
      if r.Err? then t == Err(r.error)
      else t == Ok(Intake(Commit(base, r.value.batch).utxos, r.value.made, r.value.sum))
    ensures r.Ok? ==>
      Commit(base, r.value.batch) == Commit(base, pass.batch).(utxos := Commit(base, r.value.batch).utxos)
  {
    var p := inp.point;
    var coin := Utxo("", 0);
    var batch, made := pass.batch, pass.made;
    if p in made {
      coin := made[p];
      made := made - {p};
    } else if p in base.utxos {
      coin := base.utxos[p];
      CommitOne(base, batch, DeleteUtxo(p));
      batch := batch + [DeleteUtxo(p)];
    } else {
      return Err(UtxoNotFound);
    }
    if env.addressOf(inp.pubkey).None? {
      return Err(BadPubkey);
    }
    if env.lower(env.addressOf(inp.pubkey).value) != env.lower(coin.to) {
      return Err(NotOwner);
    }
    if pass.sum + coin.amount >= U256_BOUND {
      return Err(Overflow);
    }
    return Ok(Pass(batch, made, pass.sum + coin.amount));
  }

  /** Resolve and queue the inputs of one transaction. */
  method QueueInputs(env: Env, base: Store, batch: seq<Op>, made: UtxoSet, ghost fees: nat, tx: Tx)
    returns (r: Result<Pass>)
    ensures var t := TakeInputs(env, base.utxos, Progress(Commit(base, batch).utxos, made, fees), tx.inputs);
      if r.Err? then t == Err(r.error)
      else t == Ok(Intake(Commit(base, r.value.batch).utxos, r.value.made, r.value.sum))
    ensures r.Ok? ==> Commit(base, r.value.batch) == Commit(base, batch).(utxos := Commit(base, r.value.batch).utxos)
  {
    ghost var from := Progress(Commit(base, batch).utxos, made, fees);
    var pass := Pass(batch, made, 0);
    var used: set<OutPoint> := {};
    for i := 0 to |tx.inputs|
      invariant used == InputPoints(tx.inputs[..i])
      invariant TakeInputs(env, base.utxos, from, tx.inputs[..i])
                == Ok(Intake(Commit(base, pass.batch).utxos, pass.made, pass.sum))
      invariant Commit(base, pass.batch) == Commit(base, batch).(utxos := Commit(base, pass.batch).utxos)
    {
      var inp := tx.inputs[i];
      TakeNext(env, base.utxos, from, tx.inputs, i);
      if inp.point in used {
        return Err(DuplicateInput);
      }
      var next := QueueInput(env, base, pass, inp);
      if next.Err? {
        return next;
      }
      pass, used := next.value, used + {inp.point};
    }
    assert tx.inputs[..|tx.inputs|] == tx.inputs;
    return Ok(pass);
  }

  /** One more input, and what a refusal of it means for the whole list. */
  lemma TakeNext(env: Env, u: UtxoSet, from: Progress, inputs: seq<Input>, i: nat)
    requires i < |inputs| && TakeInputs(env, u, from, inputs[..i]).Ok?
    ensures InputPoints(inputs[..i + 1]) == InputPoints(inputs[..i]) + {inputs[i].point}
    ensures var next := if inputs[i].point in InputPoints(inputs[..i]) then Err(DuplicateInput)
                        else TakeInput(env, u, TakeInputs(env, u, from, inputs[..i]).value, inputs[i]);
      && TakeInputs(env, u, from, inputs[..i + 1]) == next
      && (next.Err? ==> TakeInputs(env, u, from, inputs) == next)
  {
    assert inputs[..i + 1][..i] == inputs[..i];
    InputPointsSplit(inputs[..i + 1]);
    if TakeInputs(env, u, from, inputs[..i + 1]).Err? {
      TakeInputsError(env, u, from, inputs, i + 1);
    }
  }

  lemma {:induction false} TakeInputsError(env: Env, u: UtxoSet, from: Progress, inputs: seq<Input>, n: nat)
    requires n <= |inputs| && TakeInputs(env, u, from, inputs[..n]).Err?
    ensures TakeInputs(env, u, from, inputs) == TakeInputs(env, u, from, inputs[..n])
    decreases |inputs| - n
  {
    if n < |inputs| {
      assert inputs[..n + 1][..n] == inputs[..n];
      TakeInputsError(env, u, from, inputs, n + 1);
    } else {
      assert inputs[..n] == inputs;
    }
  }

  method SumOutputs(outputs: seq<Output>) returns (r: Result<nat>)
    ensures r == if OutSum(outputs) < U256_BOUND then Ok(OutSum(outputs)) else Err(Overflow)
  {
    var sum := 0;
    for i := 0 to |outputs|
      invariant sum == OutSum(outputs[..i]) < U256_BOUND
    {
      assert outputs[..i + 1][..i] == outputs[..i];
      if sum + outputs[i].amount >= U256_BOUND {
        OutSumGrows(outputs, i + 1);
        return Err(Overflow);
      }
      sum := sum + outputs[i].amount;
    }
    assert outputs[..|outputs|] == outputs;
    return Ok(sum);
  }

  lemma {:induction false} OutSumGrows(outputs: seq<Output>, n: nat)
    requires n <= |outputs|
    ensures OutSum(outputs[..n]) <= OutSum(outputs)
    decreases |outputs| - n
  {
    if n < |outputs| {
      OutSumGrows(outputs, n + 1);
      assert outputs[..n + 1][..n] == outputs[..n];
    } else {
      assert outputs[..n] == outputs;
    }
  }

  datatype Queue = Queue(batch: seq<Op>, made: UtxoSet, fees: nat)

  ghost function ProgressOf(base: Store, q: Queue): (p: Progress) {
    Progress(Commit(base, q.batch).utxos, q.made, q.fees)
  }

  method QueueTx(env: Env, base: Store, q: Queue, tx: Tx) returns (r: Result<Queue>)
    ensures var t := CheckTx(env, base.utxos, ProgressOf(base, q), tx);
      if r.Err? then t == Err(r.error) else t == Ok(ProgressOf(base, r.value))
    ensures r.Ok? ==>
      Commit(base, r.value.batch)
      == Commit(base, q.batch).(utxos := Commit(base, r.value.batch).utxos,
                                txs := Commit(base, q.batch).txs[tx.txid := tx])
  {
    if !Verifies(env, tx) {
      return Err(BadSignature);
    }
    var taken := QueueInputs(env, base, q.batch, q.made, q.fees, tx);
    if taken.Err? {
      return Err(taken.error);
    }
    var paid := SumOutputs(tx.outputs);
    if paid.Err? {
      return Err(paid.error);
    }
    if paid.value > taken.value.sum {
      return Err(OutputsExceedInputs);
    }
    var fee := taken.value.sum - paid.value;
    if q.fees + fee >= U256_BOUND {
      return Err(Overflow);
    }
    if fee < MinFee(env.encodedSize(tx)) {
      return Err(FeeTooLow);
    }
    var batch, made := QueueOutputs(env, base, taken.value.batch, taken.value.made, tx);
    return Ok(Queue(batch, made, q.fees + fee));
  }

  /** The transaction pass over a whole block, ending with the reward check. */
  method QueueBlock(env: Env, base: Store, b: Block) returns (r: Result<seq<Op>>)
    ensures CheckBlock(env, base.utxos, b) == if r.Err? then Err(r.error) else Ok(Commit(base, r.value).utxos)
    ensures r.Ok? ==>
      Commit(base, r.value) == base.(utxos := Commit(base, r.value).utxos, txs := PutTxs(base.txs, b.txs))
  {
    if b.txs == [] {
      return Err(EmptyBlock);
    }
    if b.txs[0].inputs != [] {
      return Err(CoinbaseHasInputs);
    }
    var done := QueueTxs(env, base, b.txs);
    if done.Err? {
      return Err(done.error);
    }
    var minted := SumOutputs(b.txs[0].outputs);
    if minted.Err? {
      return Err(minted.error);
    }
    if BlockReward(b.header.index) + done.value.fees >= U256_BOUND {
      return Err(Overflow);
    }
    if minted.value > BlockReward(b.header.index) + done.value.fees {
      return Err(ExcessReward);
    }
    return Ok(done.value.batch);
  }

  method QueueTxs(env: Env, base: Store, txs: seq<Tx>) returns (r: Result<Queue>)
    requires |txs| > 0 && txs[0].inputs == []
    ensures CheckTxs(env, base.utxos, txs) == if r.Err? then Err(r.error) else Ok(ProgressOf(base, r.value))
    ensures r.Ok? ==>
      Commit(base, r.value.batch) == base.(utxos := Commit(base, r.value.batch).utxos, txs := PutTxs(base.txs, txs))
  {
    var batch, made := QueueOutputs(env, base, [], map[], txs[0]);
    var q := Queue(batch, made, 0);
    FirstTx(env, base, txs);
    assert map[] + Coins(env, txs[0]) == Coins(env, txs[0]);
    for i := 1 to |txs|
      invariant CheckTxs(env, base.utxos, txs[..i]) == Ok(ProgressOf(base, q))
      invariant Commit(base, q.batch) == base.(utxos := Commit(base, q.batch).utxos, txs := PutTxs(base.txs, txs[..i]))
    {
      NextTx(env, base, txs, i);
      var next := QueueTx(env, base, q, txs[i]);
      if next.Err? {
        return next;
      }
      q := next.value;
    }
    assert txs[..|txs|] == txs;
    return Ok(q);
  }

  lemma FirstTx(env: Env, base: Store, txs: seq<Tx>)
    requires |txs| > 0 && txs[0].inputs == []
    ensures txs[..1] == [txs[0]] && PutTxs(base.txs, txs[..1]) == base.txs[txs[0].txid := txs[0]]
    ensures CheckTxs(env, base.utxos, txs[..1]) == Ok(Progress(base.utxos + Coins(env, txs[0]), Coins(env, txs[0]), 0))
  {
    assert txs[..1][..0] == [];
  }

  lemma NextTx(env: Env, base: Store, txs: seq<Tx>, i: nat)
    requires 0 < i < |txs| && CheckTxs(env, base.utxos, txs[..i]).Ok?
    ensures PutTxs(base.txs, txs[..i + 1]) == PutTxs(base.txs, txs[..i])[txs[i].txid := txs[i]]
    ensures var next := CheckTx(env, base.utxos, CheckTxs(env, base.utxos, txs[..i]).value, txs[i]);
      && CheckTxs(env, base.utxos, txs[..i + 1]) == next
      && (next.Err? ==> CheckTxs(env, base.utxos, txs) == Err(next.error))
  {
    assert txs[..i + 1][..i] == txs[..i];
    if CheckTxs(env, base.utxos, txs[..i + 1]).Err? {
      CheckTxsError(env, base.utxos, txs, i + 1);
    }
  }

  lemma {:induction false} CheckTxsError(env: Env, u: UtxoSet, txs: seq<Tx>, n: nat)
    requires 0 < n <= |txs| && CheckTxs(env, u, txs[..n]).Err?
    ensures CheckTxs(env, u, txs) == CheckTxs(env, u, txs[..n])
    decreases |txs| - n
  {
    if n < |txs| {
      assert txs[..n + 1][..n] == txs[..n];
      CheckTxsError(env, u, txs, n + 1);
    } else {
      assert txs[..n] == txs;
    }
  }

  // ---- batches built by rollback and replay ----

  /** The first n outputs of a transaction dropped one after the other. */
  function DropPoints(u: UtxoSet, tx: Tx, n: nat): (u': UtxoSet) {
    if n == 0 then u else DropPoints(u, tx, n - 1) - {OutPoint(tx.txid, n - 1)}
  }

  lemma {:induction false} DropPointsIs(u: UtxoSet, tx: Tx, n: nat)
    ensures DropPoints(u, tx, n) == u - set v | 0 <= v < n :: OutPoint(tx.txid, v)
  {
    if n > 0 {
      DropPointsIs(u, tx, n - 1);
    } else {
      assert u - {} == u;
    }
  }

  /** Queue the deletion of a transaction's outputs. */
  method QueueDeletes(ghost base: Store, batch: seq<Op>, tx: Tx) returns (batch': seq<Op>)
    ensures Commit(base, batch') == Commit(base, batch).(utxos := Commit(base, batch).utxos - Points(tx))
  {
    batch' := batch;
    ghost var start := Commit(base, batch);
    for v := 0 to |tx.outputs|
      invariant Commit(base, batch') == start.(utxos := DropPoints(start.utxos, tx, v))
    {
      CommitOne(base, batch', DeleteUtxo(OutPoint(tx.txid, v)));
      batch' := batch' + [DeleteUtxo(OutPoint(tx.txid, v))];
    }
    DropPointsIs(start.utxos, tx, |tx.outputs|);
  }

  /** Queue the undoing of one transaction: delete its outputs, put back what it spent, forget it. */
  method QueueUndo(stored: map<string, Tx>, ghost base: Store, batch: seq<Op>, tx: Tx)
    returns (ok: bool, batch': seq<Op>)
    ensures ok <==> SourcesStored(stored, tx)
    ensures ok ==> Commit(base, batch') == Undone(stored, Commit(base, batch), tx)
  {
    batch' := QueueDeletes(base, batch, tx);
    ok, batch' := QueueRestores(stored, base, batch', tx);
    if ok {
      CommitOne(base, batch', DeleteTx(tx.txid));
      batch' := batch' + [DeleteTx(tx.txid)];
    }
  }

  ghost function Undone(stored: map<string, Tx>, s: Store, tx: Tx): (s': Store) {
    s.(utxos := UndoTx(stored, s.utxos, tx), txs := s.txs - {tx.txid})
  }

  /** Put back what the first n inputs spent, where the stored transaction has such an output. */
  function PutRestored(stored: map<string, Tx>, u: UtxoSet, inputs: seq<Input>): (u': UtxoSet) {
    if inputs == [] then u
    else
      var before, p := PutRestored(stored, u, inputs[..|inputs| - 1]), inputs[|inputs| - 1].point;
      if Resolvable(stored, p) then before[p := RestoredCoin(stored, p)] else before
  }

  function RestoredCoin(stored: map<string, Tx>, p: OutPoint): (c: Utxo)
    requires Resolvable(stored, p)
  {
    Utxo(stored[p.txid].outputs[p.vout].to, stored[p.txid].outputs[p.vout].amount)
  }

  lemma {:induction false} PutRestoredLookup(stored: map<string, Tx>, u: UtxoSet, inputs: seq<Input>, p: OutPoint)
    ensures var r := PutRestored(stored, u, inputs);
      if PointIn(p, inputs) && Resolvable(stored, p) then p in r && r[p] == RestoredCoin(stored, p)
      else (p in r <==> p in u) && (p in u ==> r[p] == u[p])
  {
    if inputs != [] {
      PutRestoredLookup(stored, u, inputs[..|inputs| - 1], p);
      PointInSplit(p, inputs);
    }
  }

  lemma PointInSplit(p: OutPoint, inputs: seq<Input>)
    requires inputs != []
    ensures PointIn(p, inputs) <==> PointIn(p, inputs[..|inputs| - 1]) || inputs[|inputs| - 1].point == p
  {
    var front := inputs[..|inputs| - 1];
    assert forall i :: 0 <= i < |front| ==> front[i] == inputs[i];
  }

  lemma PutAllRestored(stored: map<string, Tx>, u: UtxoSet, tx: Tx)
    ensures PutRestored(stored, u, tx.inputs) == u + Restored(stored, tx)
  {
    forall p
      ensures p in PutRestored(stored, u, tx.inputs) <==> p in u + Restored(stored, tx)
      ensures p in u + Restored(stored, tx) ==> PutRestored(stored, u, tx.inputs)[p] == (u + Restored(stored, tx))[p]
    {
      PutRestoredLookup(stored, u, tx.inputs, p);
      assert p in Spent(tx) <==> PointIn(p, tx.inputs);
    }
  }

  method QueueRestores(stored: map<string, Tx>, ghost base: Store, batch: seq<Op>, tx: Tx)
    returns (ok: bool, batch': seq<Op>)
    ensures ok <==> SourcesStored(stored, tx)
    ensures ok ==>
      Commit(base, batch') == Commit(base, batch).(utxos := Commit(base, batch).utxos + Restored(stored, tx))
  {
    batch' := batch;
    ghost var start := Commit(base, batch);
    for i := 0 to |tx.inputs|
      invariant Commit(base, batch') == start.(utxos := PutRestored(stored, start.utxos, tx.inputs[..i]))
      invariant forall k :: 0 <= k < i ==> tx.inputs[k].point.txid in stored
    {
      var p := tx.inputs[i].point;
      if p.txid !in stored {
        return false, batch';
      }
      NextPrefix(tx.inputs, i);
      if p.vout < |stored[p.txid].outputs| {
        var out := stored[p.txid].outputs[p.vout];
        CommitOne(base, batch', PutUtxo(p, Utxo(out.to, out.amount)));
        batch' := batch' + [PutUtxo(p, Utxo(out.to, out.amount))];
      }
    }
    WholePrefix(tx.inputs);
    PutAllRestored(stored, start.utxos, tx);
    ok := true;
  }

  /** Queue the undoing of a block. */
  method QueueUndoBlock(stored: map<string, Tx>, ghost base: Store, batch: seq<Op>, b: Block)
    returns (ok: bool, batch': seq<Op>)
    ensures ok <==> CanUndoBlock(stored, b)
    ensures ok ==> Commit(base, batch') == UndoBlock(stored, Commit(base, batch), b)
  {
    ok, batch' := QueueUndoTxs(stored, base, batch, b.txs);
    if ok {
      CommitOne(base, batch', DeleteBlock(b.hash));
      batch' := batch' + [DeleteBlock(b.hash)];
      CommitOne(base, batch', DeleteIndex(b.header.index));
      batch' := batch' + [DeleteIndex(b.header.index)];
    }
  }

  /** Transactions are undone last to first. */
  method QueueUndoTxs(stored: map<string, Tx>, ghost base: Store, batch: seq<Op>, txs: seq<Tx>)
    returns (ok: bool, batch': seq<Op>)
    ensures ok <==> UndoableFrom(stored, txs, 0)
    ensures ok ==> Commit(base, batch') == AllUndone(stored, Commit(base, batch), txs)
  {
    batch' := batch;
    ghost var start, cur := Commit(base, batch), Commit(base, batch);
    var k := |txs|;
    UndoStarts(stored, start, txs);
    while k > 0
      invariant 0 <= k <= |txs|
      invariant UndoableFrom(stored, txs, k)
      invariant cur == Commit(base, batch') && UndoneFrom(stored, start, cur, txs, k)
    {
      k := k - 1;
      UndoContinues(stored, start, cur, txs, k);
      UndoableNext(stored, txs, k);
      ok, batch' := QueueUndo(stored, base, batch', txs[k]);
      if !ok {
        return;
      }
      cur := Undone(stored, cur, txs[k]);
    }
    ok := true;
    UndoEnds(stored, start, cur, txs);
  }

  predicate UndoableFrom(stored: map<string, Tx>, txs: seq<Tx>, k: nat) {
    forall j :: k <= j < |txs| ==> SourcesStored(stored, txs[j])
  }

  lemma UndoableNext(stored: map<string, Tx>, txs: seq<Tx>, k: nat)
    requires k < |txs| && UndoableFrom(stored, txs, k + 1)
    ensures if SourcesStored(stored, txs[k]) then UndoableFrom(stored, txs, k) else !UndoableFrom(stored, txs, 0)
  {
  }

  ghost function AllUndone(stored: map<string, Tx>, s: Store, txs: seq<Tx>): (s': Store) {
    s.(utxos := UndoTxs(stored, s.utxos, txs), txs := s.txs - TxIds(txs))
  }

  lemma UndoEnds(stored: map<string, Tx>, start: Store, cur: Store, txs: seq<Tx>)
    requires UndoneFrom(stored, start, cur, txs, 0)
    ensures cur == AllUndone(stored, start, txs)
  {
    assert txs[0..] == txs && txs[..0] == [];
  }

  /** `cur` is `start` with the transactions from k on undone. */
  ghost predicate UndoneFrom(stored: map<string, Tx>, start: Store, cur: Store, txs: seq<Tx>, k: nat)
    requires k <= |txs|
  {
    && UndoTxs(stored, cur.utxos, txs[..k]) == UndoTxs(stored, start.utxos, txs)
    && cur == start.(utxos := cur.utxos, txs := start.txs - TxIds(txs[k..]))
  }

  lemma UndoStarts(stored: map<string, Tx>, start: Store, txs: seq<Tx>)
    ensures UndoneFrom(stored, start, start, txs, |txs|)
  {
    assert txs[..|txs|] == txs && txs[|txs|..] == [];
    assert start.txs - TxIds([]) == start.txs;
  }

  lemma UndoContinues(stored: map<string, Tx>, start: Store, cur: Store, txs: seq<Tx>, k: nat)
    requires k < |txs| && UndoneFrom(stored, start, cur, txs, k + 1)
    ensures UndoneFrom(stored, start, Undone(stored, cur, txs[k]), txs, k)
  {
    assert txs[..k + 1][..k] == txs[..k];
    IdsSplit(txs, k);
    assert start.txs - TxIds(txs[k + 1..]) - {txs[k].txid} == start.txs - TxIds(txs[k..]);
  }

  lemma IdsSplit(txs: seq<Tx>, k: nat)
    requires k < |txs|
    ensures TxIds(txs[k..]) == TxIds(txs[k + 1..]) + {txs[k].txid}
  {
    assert txs[k..] == [txs[k]] + txs[k + 1..];
  }

  /** Queue the replaying of one transaction: put its outputs as written, then delete what it spends. */
  method QueueReplay(ghost base: Store, batch: seq<Op>, tx: Tx) returns (batch': seq<Op>)
    ensures Commit(base, batch') == Commit(base, batch).(utxos := ReplayTx(Commit(base, batch).utxos, tx))
  {
    batch' := QueueWritten(base, batch, tx);
    batch' := QueueSpends(base, batch', tx);
  }

  method QueueSpends(ghost base: Store, batch: seq<Op>, tx: Tx) returns (batch': seq<Op>)
    ensures Commit(base, batch') == Commit(base, batch).(utxos := Commit(base, batch).utxos - Spent(tx))
  {
    batch' := batch;
    ghost var start := Commit(base, batch);
    for i := 0 to |tx.inputs|
      invariant Commit(base, batch') == start.(utxos := DropInputs(start.utxos, tx.inputs[..i]))
    {
      NextPrefix(tx.inputs, i);
      CommitOne(base, batch', DeleteUtxo(tx.inputs[i].point));
      batch' := batch' + [DeleteUtxo(tx.inputs[i].point)];
    }
    WholePrefix(tx.inputs);
    DropInputsIs(start.utxos, tx.inputs);
  }

  function DropInputs(u: UtxoSet, inputs: seq<Input>): (u': UtxoSet) {
    if inputs == [] then u else DropInputs(u, inputs[..|inputs| - 1]) - {inputs[|inputs| - 1].point}
  }

  lemma {:induction false} DropInputsIs(u: UtxoSet, inputs: seq<Input>)
    ensures DropInputs(u, inputs) == u - InputPoints(inputs)
  {
    if inputs == [] {
      assert u - {} == u;
    } else {
      DropInputsIs(u, inputs[..|inputs| - 1]);
      InputPointsSplit(inputs);
    }
  }

  /** The outputs as written, put one after the other. */
  function PutWritten(u: UtxoSet, tx: Tx, n: nat): (u': UtxoSet)
    requires n <= |tx.outputs|
  {
    if n == 0 then u
    else PutWritten(u, tx, n - 1)[OutPoint(tx.txid, n - 1) := Utxo(tx.outputs[n - 1].to, tx.outputs[n - 1].amount)]
  }

  lemma {:induction false} PutWrittenLookup(u: UtxoSet, tx: Tx, n: nat, p: OutPoint)
    requires n <= |tx.outputs|
    ensures var r := PutWritten(u, tx, n);
      if p.txid == tx.txid && p.vout < n then p in r && r[p] == Utxo(tx.outputs[p.vout].to, tx.outputs[p.vout].amount)
      else (p in r <==> p in u) && (p in u ==> r[p] == u[p])
  {
    if n > 0 {
      PutWrittenLookup(u, tx, n - 1, p);
    }
  }

  lemma PutAllWritten(u: UtxoSet, tx: Tx)
    ensures PutWritten(u, tx, |tx.outputs|) == u + WrittenCoins(tx)
  {
    forall p
      ensures p in PutWritten(u, tx, |tx.outputs|) <==> p in u + WrittenCoins(tx)
      ensures p in u + WrittenCoins(tx) ==> PutWritten(u, tx, |tx.outputs|)[p] == (u + WrittenCoins(tx))[p]
    {
      PutWrittenLookup(u, tx, |tx.outputs|, p);
    }
  }

  method QueueWritten(ghost base: Store, batch: seq<Op>, tx: Tx) returns (batch': seq<Op>)
    ensures Commit(base, batch') == Commit(base, batch).(utxos := Commit(base, batch).utxos + WrittenCoins(tx))
  {
    batch' := batch;
    ghost var start := Commit(base, batch);
    for v := 0 to |tx.outputs|
      invariant Commit(base, batch') == start.(utxos := PutWritten(start.utxos, tx, v))
    {
      var p, c := OutPoint(tx.txid, v), Utxo(tx.outputs[v].to, tx.outputs[v].amount);
      CommitOne(base, batch', PutUtxo(p, c));
      batch' := batch' + [PutUtxo(p, c)];
    }
    PutAllWritten(start.utxos, tx);
  }

  /** The batch that replays one block. */
  method QueueReplayBlock(ghost base: Store, b: Block) returns (batch: seq<Op>)
    ensures Commit(base, batch) == ReplayBlock(base, b)
  {
    batch := [];
    for i := 0 to |b.txs|
      invariant Commit(base, batch) == base.(utxos := ReplayTxs(base.utxos, b.txs[..i]))
    {
      NextPrefix(b.txs, i);
      batch := QueueReplay(base, batch, b.txs[i]);
    }
    WholePrefix(b.txs);
    CommitOne(base, batch, PutIndex(b.header.index, b.hash));
    batch := batch + [PutIndex(b.header.index, b.hash)];
  }
}
