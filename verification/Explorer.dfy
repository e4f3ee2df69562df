/** The block explorer's forward and reverse UTXO indexes, kept up by incremental syncs. */
module Explorer {
  import opened Domain
  import opened Seqs
  import opened Bytes
  import opened Ledger
  import opened Supply
  import opened TxRules
  import Rewind
  import Undoing

  /** `eu:{address}:{txid}:{vout}` */
  datatype EuKey = EuKey(address: string, point: OutPoint)

  /** `eu:` maps to the amount, `eur:{txid}:{vout}` to the address. */
  datatype Index = Index(eu: map<EuKey, nat>, eur: map<OutPoint, string>)

  const EMPTY_INDEX: Index := Index(map[], map[])

  datatype Created = Created(point: OutPoint, to: string, amount: nat)

  datatype SpentRef = SpentRef(point: OutPoint, address: string)

  /** The in-memory map and the two lists an extraction builds. */
  datatype Extraction = Extraction(held: UtxoSet, created: seq<Created>, spent: seq<SpentRef>)

  // ---- extraction ----

  function Take(e: Extraction, p: OutPoint): (e': Extraction) {
    e.(held := e.held - {p}, spent := e.spent + [SpentRef(p, if p in e.held then e.held[p].to else "")])
  }

  function TakeAll(e: Extraction, inputs: seq<Input>): (e': Extraction) {
    if inputs == [] then e else Take(TakeAll(e, inputs[..|inputs| - 1]), inputs[|inputs| - 1].point)
  }

  function Give(e: Extraction, p: OutPoint, out: Output): (e': Extraction) {
    e.(held := e.held[p := Utxo(out.to, out.amount)], created := e.created + [Created(p, out.to, out.amount)])
  }

  function GiveAll(e: Extraction, tx: Tx, n: nat): (e': Extraction)
    requires n <= |tx.outputs|
  {
    if n == 0 then e else Give(GiveAll(e, tx, n - 1), OutPoint(tx.txid, n - 1), tx.outputs[n - 1])
  }

  function ExtractTx(e: Extraction, tx: Tx): (e': Extraction) {
    GiveAll(TakeAll(e, tx.inputs), tx, |tx.outputs|)
  }

  function ExtractTxs(e: Extraction, txs: seq<Tx>): (e': Extraction) {
    if txs == [] then e else ExtractTx(ExtractTxs(e, txs[..|txs| - 1]), txs[|txs| - 1])
  }

  /** The walk over a list of transactions: remove inputs from the map, then add outputs, noting both. */
  method ExtractTransactions(existing: UtxoSet, txs: seq<Tx>) returns (e: Extraction)
    ensures e == ExtractTxs(Extraction(existing, [], []), txs)
  {
    var held, created, spent := existing, [], [];
    for i := 0 to |txs|
      invariant Extraction(held, created, spent) == ExtractTxs(Extraction(existing, [], []), txs[..i])
    {
      var tx := txs[i];
      NextPrefix(txs, i);
      ghost var before := Extraction(held, created, spent);
      for j := 0 to |tx.inputs|
        invariant Extraction(held, created, spent) == TakeAll(before, tx.inputs[..j])
      {
        var p := tx.inputs[j].point;
        NextPrefix(tx.inputs, j);
        spent := spent + [SpentRef(p, if p in held then held[p].to else "")];
        held := held - {p};
      }
      WholePrefix(tx.inputs);
      ghost var taken := Extraction(held, created, spent);
      for v := 0 to |tx.outputs|
        invariant Extraction(held, created, spent) == GiveAll(taken, tx, v)
      {
        var p, out := OutPoint(tx.txid, v), tx.outputs[v];
        held := held[p := Utxo(out.to, out.amount)];
        created := created + [Created(p, out.to, out.amount)];
      }
    }
    WholePrefix(txs);
    e := Extraction(held, created, spent);
  }

  // ---- applying the changes ----

  function Put(x: Index, c: Created): (x': Index) {
    Index(x.eu[EuKey(c.to, c.point) := c.amount], x.eur[c.point := c.to])
  }

  function PutAll(x: Index, created: seq<Created>): (x': Index) {
    if created == [] then x else Put(PutAll(x, created[..|created| - 1]), created[|created| - 1])
  }

  /** The address a spend belongs to: the noted one, else what the committed reverse index says. */
  function AddressOf(committed: map<OutPoint, string>, r: SpentRef): (a: string) {
    if r.address != "" then r.address else if r.point in committed then committed[r.point] else ""
  }

  function Drop(committed: map<OutPoint, string>, x: Index, r: SpentRef): (x': Index) {
    var a := AddressOf(committed, r);
    Index(if a != "" then x.eu - {EuKey(a, r.point)} else x.eu, x.eur - {r.point})
  }

  function DropAll(committed: map<OutPoint, string>, x: Index, spent: seq<SpentRef>): (x': Index) {
    if spent == [] then x else Drop(committed, DropAll(committed, x, spent[..|spent| - 1]), spent[|spent| - 1])
  }

  datatype IndexOp = PutForward(key: EuKey, amount: nat) | PutReverse(point: OutPoint, address: string)
                   | DeleteForward(key: EuKey) | DeleteReverse(point: OutPoint)

  function ApplyIndexOp(x: Index, op: IndexOp): (x': Index) {
    match op
    case PutForward(k, a) => x.(eu := x.eu[k := a])
    case PutReverse(p, a) => x.(eur := x.eur[p := a])
    case DeleteForward(k) => x.(eu := x.eu - {k})
    case DeleteReverse(p) => x.(eur := x.eur - {p})
  }

  function CommitIndex(x: Index, batch: seq<IndexOp>): (x': Index) {
    if batch == [] then x else ApplyIndexOp(CommitIndex(x, batch[..|batch| - 1]), batch[|batch| - 1])
  }

  lemma CommitIndexOne(x: Index, batch: seq<IndexOp>, op: IndexOp)
    ensures CommitIndex(x, batch + [op]) == ApplyIndexOp(CommitIndex(x, batch), op)
  {
    assert (batch + [op])[..|batch|] == batch;
  }

  class ExplorerDb {
    var index: Index

    constructor ()
      ensures index == EMPTY_INDEX
    {
      index := EMPTY_INDEX;
    }

    /** apply_utxo_changes: queue all creations, then all spends, looking addresses up in the committed index. */
    method ApplyUtxoChanges(created: seq<Created>, spent: seq<SpentRef>)
      modifies this
      ensures index == DropAll(old(index).eur, PutAll(old(index), created), spent)
    {
      var batch := [];
      for i := 0 to |created|
        invariant index == old(index) && CommitIndex(index, batch) == PutAll(index, created[..i])
      {
        var c := created[i];
        NextPrefix(created, i);
        CommitIndexOne(index, batch, PutForward(EuKey(c.to, c.point), c.amount));
        batch := batch + [PutForward(EuKey(c.to, c.point), c.amount)];
        CommitIndexOne(index, batch, PutReverse(c.point, c.to));
        batch := batch + [PutReverse(c.point, c.to)];
      }
      WholePrefix(created);
      ghost var put := PutAll(index, created);
      for i := 0 to |spent|
        invariant index == old(index) && CommitIndex(index, batch) == DropAll(index.eur, put, spent[..i])
      {
        var r := spent[i];
        NextPrefix(spent, i);
        var a := AddressOf(index.eur, r);
        if a != "" {
          CommitIndexOne(index, batch, DeleteForward(EuKey(a, r.point)));
          batch := batch + [DeleteForward(EuKey(a, r.point))];
        }
        CommitIndexOne(index, batch, DeleteReverse(r.point));
        batch := batch + [DeleteReverse(r.point)];
      }
      WholePrefix(spent);
      index := CommitIndex(index, batch);
    }
  }

  /** One sync of a range, with a fresh in-memory map. */
  function Sync(x: Index, txs: seq<Tx>): (x': Index) {
    var e := ExtractTxs(Extraction(map[], [], []), txs);
    DropAll(x.eur, PutAll(x, e.created), e.spent)
  }

  /** The two indexes hold exactly the set: each is the other's inverse. */
  ghost predicate Indexes(x: Index, u: UtxoSet) {
    && x.eur.Keys == u.Keys
    && (forall p :: p in u ==> x.eur[p] == u[p].to)
    && (forall k :: k in x.eu <==> k.point in u && u[k.point].to == k.address)
    && (forall k :: k in x.eu ==> x.eu[k] == u[k.point].amount)
  }

  lemma IndexesUnique(x: Index, y: Index, u: UtxoSet)
    requires Indexes(x, u) && Indexes(y, u)
    ensures x == y
  {
    assert x.eu.Keys == y.eu.Keys;
  }

  lemma PutIndexes(x: Index, u: UtxoSet, c: Created)
    requires Indexes(x, u) && c.point !in u
    ensures Indexes(Put(x, c), u[c.point := Utxo(c.to, c.amount)])
  {
  }

  lemma DropIndexes(committed: map<OutPoint, string>, x: Index, u: UtxoSet, r: SpentRef)
    requires Indexes(x, u) && r.point in u && AddressOf(committed, r) == u[r.point].to != ""
    ensures Indexes(Drop(committed, x, r), u - {r.point})
  {
  }

  // ---- what an extraction notes ----

  /** The explorer keeps addresses as written. */
  ghost predicate Verbatim(env: Env) {
    forall s :: env.lower(s) == s
  }

  function RefTo(held: UtxoSet, p: OutPoint): (r: SpentRef) { SpentRef(p, if p in held then held[p].to else "") }

  function Refs(held: UtxoSet, inputs: seq<Input>): (rs: seq<SpentRef>)
    ensures |rs| == |inputs| && forall i :: 0 <= i < |rs| ==> rs[i] == RefTo(held, inputs[i].point)
  {
    seq(|inputs|, i requires 0 <= i < |inputs| => RefTo(held, inputs[i].point))
  }

  ghost predicate DistinctInputs(inputs: seq<Input>) {
    forall i, j :: 0 <= i < j < |inputs| ==> inputs[i].point != inputs[j].point
  }

  lemma {:induction false} TakeAllShape(e: Extraction, inputs: seq<Input>)
    requires DistinctInputs(inputs)
    ensures TakeAll(e, inputs) == Extraction(e.held - InputPoints(inputs), e.created, e.spent + Refs(e.held, inputs))
  {
    if inputs == [] {
      assert e.held - {} == e.held && e.spent + [] == e.spent;
    } else {
      var before, p := inputs[..|inputs| - 1], inputs[|inputs| - 1].point;
      TakeAllShape(e, before);
      InputPointsSplit(inputs);
      assert !PointIn(p, before);
      RefsSplit(e.held, inputs);
      JoinAssociates(e.spent, Refs(e.held, before), [RefTo(e.held, p)]);
      assert e.held - InputPoints(before) - {p} == e.held - InputPoints(inputs);
    }
  }

  lemma RefsSplit(held: UtxoSet, inputs: seq<Input>)
    requires inputs != []
    ensures Refs(held, inputs) == Refs(held, inputs[..|inputs| - 1]) + [RefTo(held, inputs[|inputs| - 1].point)]
  {
  }

  lemma {:induction false} GiveAllShape(env: Env, e: Extraction, tx: Tx, n: nat)
    requires Verbatim(env) && n <= |tx.outputs|
    ensures GiveAll(e, tx, n).held == PutCoins(env, e.held, tx, n) && GiveAll(e, tx, n).spent == e.spent
  {
    if n > 0 {
      GiveAllShape(env, e, tx, n - 1);
    }
  }

  lemma {:induction false} GiveAllIndexes(env: Env, e: Extraction, x: Index, u: UtxoSet, tx: Tx, n: nat)
    requires Verbatim(env) && n <= |tx.outputs| && Points(tx) !! u.Keys && Indexes(PutAll(x, e.created), u)
    ensures Indexes(PutAll(x, GiveAll(e, tx, n).created), PutCoins(env, u, tx, n))
  {
    if n > 0 {
      var p := OutPoint(tx.txid, n - 1);
      GiveAllIndexes(env, e, x, u, tx, n - 1);
      assert p in Points(tx);
      PutCoinsLookup(env, u, tx, n - 1, p);
      var before, c := GiveAll(e, tx, n - 1), Created(p, tx.outputs[n - 1].to, tx.outputs[n - 1].amount);
      PutIndexes(PutAll(x, before.created), PutCoins(env, u, tx, n - 1), c);
      PutOneMore(x, before.created, c);
    }
  }

  lemma PutOneMore(x: Index, created: seq<Created>, c: Created)
    ensures PutAll(x, created + [c]) == Put(PutAll(x, created), c)
  {
    assert (created + [c])[..|created|] == created;
  }

  /** A valid list with fresh txids: what is left of the old set and of the new coins. */
  lemma {:induction false} ValidTracks(env: Env, u: UtxoSet, txs: seq<Tx>)
    requires SequenceOk(env, u, txs) && FreshTxids(u, txs)
    ensures var spent, coins := AllSpent(txs), AllCoins(env, txs);
      && ApplyTxs(env, u, txs) == (u - spent) + (coins - spent)
      && spent <= u.Keys + coins.Keys && u.Keys !! coins.Keys
  {
    if txs == [] {
      var none: UtxoSet := map[];
      assert u - {} == u && none - {} == none && u + none == u;
    } else {
      var front, tx := txs[..|txs| - 1], txs[|txs| - 1];
      LastIsFresh(env, u, txs);
      ValidTracks(env, u, front);
      assert TxOk(ApplyTxs(env, u, front), tx);
      TracksStep(u, AllSpent(front), AllCoins(env, front), Spent(tx), Coins(env, tx));
    }
  }

  /** One transaction: what it leaves in the map and notes as spent. */
  lemma HeldStep(env: Env, e: Extraction, coins: UtxoSet, spent: set<OutPoint>, tx: Tx)
    requires Verbatim(env) && DistinctInputs(tx.inputs) && e.held == coins - spent
    requires Points(tx) !! spent + Spent(tx)
    ensures ExtractTx(e, tx).held == (coins + Coins(env, tx)) - (spent + Spent(tx))
    ensures ExtractTx(e, tx).spent == e.spent + Refs(e.held, tx.inputs)
  {
    TakeAllShape(e, tx.inputs);
    GiveAllShape(env, TakeAll(e, tx.inputs), tx, |tx.outputs|);
    PutAllCoins(env, TakeAll(e, tx.inputs).held, tx);
    MadeStep(spent, coins, Spent(tx), Coins(env, tx));
  }

  /** One transaction: its creations extend what the index would hold. */
  lemma CreatedStep(env: Env, e: Extraction, x: Index, v: UtxoSet, tx: Tx)
    requires Verbatim(env) && DistinctInputs(tx.inputs) && Points(tx) !! v.Keys && Indexes(PutAll(x, e.created), v)
    ensures Indexes(PutAll(x, ExtractTx(e, tx).created), v + Coins(env, tx))
  {
    TakeAllShape(e, tx.inputs);
    GiveAllIndexes(env, TakeAll(e, tx.inputs), x, v, tx, |tx.outputs|);
    PutAllCoins(env, v, tx);
  }

  function Extracted(txs: seq<Tx>): (e: Extraction) { ExtractTxs(Extraction(map[], [], []), txs) }

  lemma LastTxFits(env: Env, u: UtxoSet, txs: seq<Tx>)
    requires txs != [] && SequenceOk(env, u, txs) && FreshTxids(u, txs)
    ensures var front, tx := txs[..|txs| - 1], txs[|txs| - 1];
      && SequenceOk(env, u, front) && FreshTxids(u, front) && TxOk(ApplyTxs(env, u, front), tx)
      && DistinctInputs(tx.inputs)
      && Points(tx) !! (u + AllCoins(env, front)).Keys
      && Points(tx) !! AllSpent(front) + Spent(tx)
      && Spent(tx) <= (u - AllSpent(front)).Keys + (AllCoins(env, front) - AllSpent(front)).Keys
  {
    LastIsFresh(env, u, txs);
    ValidTracks(env, u, txs[..|txs| - 1]);
  }

  /** The fresh map holds the coins made and not yet spent in the range, and the creations index them all. */
  lemma {:induction false} ExtractionShape(env: Env, x: Index, u: UtxoSet, txs: seq<Tx>)
    requires Verbatim(env) && SequenceOk(env, u, txs) && FreshTxids(u, txs) && Indexes(x, u)
    ensures Extracted(txs).held == AllCoins(env, txs) - AllSpent(txs)
    ensures Indexes(PutAll(x, Extracted(txs).created), u + AllCoins(env, txs))
  {
    if txs == [] {
      assert u + map[] == u;
    } else {
      var front, tx := txs[..|txs| - 1], txs[|txs| - 1];
      LastTxFits(env, u, txs);
      ExtractionShape(env, x, u, front);
      HeldStep(env, Extracted(front), AllCoins(env, front), AllSpent(front), tx);
      CreatedStep(env, Extracted(front), x, u + AllCoins(env, front), tx);
      UnionAssociates(u, AllCoins(env, front), Coins(env, tx));
    }
  }

  lemma UnionAssociates(a: UtxoSet, b: UtxoSet, c: UtxoSet)
    ensures a + b + c == a + (b + c)
  {
  }

  // ---- spending ----

  lemma {:induction false} DropConcat(committed: map<OutPoint, string>, x: Index, a: seq<SpentRef>, b: seq<SpentRef>)
    ensures DropAll(committed, x, a + b) == DropAll(committed, DropAll(committed, x, a), b)
  {
    if b == [] {
      assert a + b == a;
    } else {
      DropConcat(committed, x, a, b[..|b| - 1]);
      DropLastOfJoin(a, b);
    }
  }

  /** The reference notes, or lets the committed index supply, the right address. */
  ghost predicate Resolves(committed: map<OutPoint, string>, v: UtxoSet, held: UtxoSet, p: OutPoint) {
    p in v && AddressOf(committed, RefTo(held, p)) == v[p].to != ""
  }

  lemma {:induction false} DropRefs(committed: map<OutPoint, string>, x: Index, v: UtxoSet, held: UtxoSet,
                                    inputs: seq<Input>)
    requires Indexes(x, v) && DistinctInputs(inputs)
    requires forall i :: 0 <= i < |inputs| ==> Resolves(committed, v, held, inputs[i].point)
    ensures Indexes(DropAll(committed, x, Refs(held, inputs)), v - InputPoints(inputs))
  {
    if inputs == [] {
      assert v - {} == v;
    } else {
      var before, p := inputs[..|inputs| - 1], inputs[|inputs| - 1].point;
      DropRefs(committed, x, v, held, before);
      DropLastRef(committed, x, held, inputs);
      PointsWithoutLast(v, inputs);
      assert Resolves(committed, v, held, p);
      DropIndexes(committed, DropAll(committed, x, Refs(held, before)), v - InputPoints(before), RefTo(held, p));
    }
  }

  lemma DropLastRef(committed: map<OutPoint, string>, x: Index, held: UtxoSet, inputs: seq<Input>)
    requires inputs != []
    ensures DropAll(committed, x, Refs(held, inputs))
      == Drop(committed, DropAll(committed, x, Refs(held, inputs[..|inputs| - 1])),
              RefTo(held, inputs[|inputs| - 1].point))
  {
    RefsSplit(held, inputs);
  }

  lemma PointsWithoutLast(v: UtxoSet, inputs: seq<Input>)
    requires inputs != [] && DistinctInputs(inputs)
    ensures inputs[|inputs| - 1].point !in InputPoints(inputs[..|inputs| - 1])
    ensures v - InputPoints(inputs[..|inputs| - 1]) - {inputs[|inputs| - 1].point} == v - InputPoints(inputs)
  {
    InputPointsSplit(inputs);
    assert !PointIn(inputs[|inputs| - 1].point, inputs[..|inputs| - 1]);
  }

  ghost predicate Addressed(u: UtxoSet) {
    forall p :: p in u ==> u[p].to != ""
  }

  /** Dropping what a prefix of the range spent, from an index of everything the range ever held. */
  lemma {:induction false} DropPrefix(env: Env, x: Index, u: UtxoSet, all: UtxoSet, y: Index, txs: seq<Tx>)
    requires Verbatim(env) && SequenceOk(env, u, txs) && FreshTxids(u, txs) && Indexes(x, u)
    requires Indexes(y, all) && Addressed(all)
    requires forall p :: p in u + AllCoins(env, txs) ==> p in all && all[p] == (u + AllCoins(env, txs))[p]
    ensures Indexes(DropAll(x.eur, y, Extracted(txs).spent), all - AllSpent(txs))
  {
    if txs == [] {
      assert all - {} == all;
    } else {
      var front, tx := txs[..|txs| - 1], txs[|txs| - 1];
      LastTxFits(env, u, txs);
      ExtractionShape(env, x, u, front);
      HeldStep(env, Extracted(front), AllCoins(env, front), AllSpent(front), tx);
      KnownBefore(env, u, all, txs);
      DropPrefix(env, x, u, all, y, front);
      ResolvesAll(env, x, u, all, txs);
      DropRefs(x.eur, DropAll(x.eur, y, Extracted(front).spent), all - AllSpent(front), Extracted(front).held,
               tx.inputs);
      DropConcat(x.eur, y, Extracted(front).spent, Refs(Extracted(front).held, tx.inputs));
      RemoveTwice(all, AllSpent(front), Spent(tx));
    }
  }

  lemma RemoveTwice(u: UtxoSet, a: set<OutPoint>, b: set<OutPoint>)
    ensures u - a - b == u - (a + b)
  {
  }

  lemma KnownBefore(env: Env, u: UtxoSet, all: UtxoSet, txs: seq<Tx>)
    requires txs != [] && FreshTxids(u, txs)
    requires forall p :: p in u + AllCoins(env, txs) ==> p in all && all[p] == (u + AllCoins(env, txs))[p]
    ensures var front := txs[..|txs| - 1];
      forall p :: p in u + AllCoins(env, front) ==> p in all && all[p] == (u + AllCoins(env, front))[p]
  {
    LastIsFresh(env, u, txs);
  }

  lemma ResolvesAll(env: Env, x: Index, u: UtxoSet, all: UtxoSet, txs: seq<Tx>)
    requires txs != [] && SequenceOk(env, u, txs) && FreshTxids(u, txs) && Indexes(x, u) && Addressed(all)
    requires var front := txs[..|txs| - 1];
      forall p :: p in u + AllCoins(env, front) ==> p in all && all[p] == (u + AllCoins(env, front))[p]
    ensures var front, tx := txs[..|txs| - 1], txs[|txs| - 1];
      forall i :: 0 <= i < |tx.inputs| ==>
        Resolves(x.eur, all - AllSpent(front), AllCoins(env, front) - AllSpent(front), tx.inputs[i].point)
  {
    var front, tx := txs[..|txs| - 1], txs[|txs| - 1];
    LastTxFits(env, u, txs);
    LastIsFresh(env, u, txs);
    forall i | 0 <= i < |tx.inputs|
      ensures Resolves(x.eur, all - AllSpent(front), AllCoins(env, front) - AllSpent(front), tx.inputs[i].point)
    {
      var p := tx.inputs[i].point;
      assert p in Spent(tx);
      assert p in u + AllCoins(env, front);
    }
  }

  /** A sync keeps the two indexes mutually inverse and exactly the replayed set. */
  lemma SyncKeeps(env: Env, x: Index, u: UtxoSet, txs: seq<Tx>)
    requires Verbatim(env) && SequenceOk(env, u, txs) && FreshTxids(u, txs) && Indexes(x, u)
    requires Addressed(u + AllCoins(env, txs))
    ensures Indexes(Sync(x, txs), ApplyTxs(env, u, txs))
  {
    var all := u + AllCoins(env, txs);
    ExtractionShape(env, x, u, txs);
    DropPrefix(env, x, u, all, PutAll(x, Extracted(txs).created), txs);
    ValidTracks(env, u, txs);
    SplitRemoval(u, AllCoins(env, txs), AllSpent(txs));
  }

  lemma SplitRemoval(u: UtxoSet, coins: UtxoSet, spent: set<OutPoint>)
    ensures (u + coins) - spent == (u - spent) + (coins - spent)
  {
  }

  // ---- many syncs ----

  function Flatten(parts: seq<seq<Tx>>): (txs: seq<Tx>) {
    if parts == [] then [] else Flatten(parts[..|parts| - 1]) + parts[|parts| - 1]
  }

  function SyncAll(x: Index, parts: seq<seq<Tx>>): (x': Index) {
    if parts == [] then x else Sync(SyncAll(x, parts[..|parts| - 1]), parts[|parts| - 1])
  }

  ghost predicate AllAddressed(txs: seq<Tx>) {
    forall i, j :: 0 <= i < |txs| && 0 <= j < |txs[i].outputs| ==> txs[i].outputs[j].to != ""
  }

  lemma {:induction false} CoinsAddressed(env: Env, u: UtxoSet, txs: seq<Tx>)
    requires Verbatim(env) && Addressed(u) && AllAddressed(txs)
    ensures Addressed(ApplyTxs(env, u, txs)) && Addressed(u + AllCoins(env, txs))
  {
    if txs != [] {
      var front, tx := txs[..|txs| - 1], txs[|txs| - 1];
      assert AllAddressed(front) by {
        assert forall i :: 0 <= i < |front| ==> front[i] == txs[i];
      }
      CoinsAddressed(env, u, front);
      assert Addressed(Coins(env, tx)) by {
        assert txs[|txs| - 1] == tx;
      }
      UnionAssociates(u, AllCoins(env, front), Coins(env, tx));
    }
  }

  lemma {:induction false} SequenceSplit(env: Env, u: UtxoSet, a: seq<Tx>, b: seq<Tx>)
    requires SequenceOk(env, u, a + b)
    ensures SequenceOk(env, u, a) && SequenceOk(env, ApplyTxs(env, u, a), b)
  {
    if b == [] {
      assert a + b == a;
    } else {
      DropLastOfJoin(a, b);
      SequenceSplit(env, u, a, b[..|b| - 1]);
      Rewind.ApplyConcat(env, u, a, b[..|b| - 1]);
    }
  }

  lemma FreshSplit(env: Env, u: UtxoSet, a: seq<Tx>, b: seq<Tx>)
    requires FreshTxids(u, a + b)
    ensures FreshTxids(u, a) && FreshTxids(ApplyTxs(env, u, a), b)
  {
    FreshParts(u, a, b);
    forall p | p in ApplyTxs(env, u, a)
      ensures forall i :: 0 <= i < |b| ==> p.txid != b[i].txid
    {
      Undoing.CreatedOrOld(env, u, a, p);
    }
  }

  lemma FreshParts(u: UtxoSet, a: seq<Tx>, b: seq<Tx>)
    requires FreshTxids(u, a + b)
    ensures FreshTxids(u, a) && FreshTxids(u, b)
    ensures forall i, j :: 0 <= i < |a| && 0 <= j < |b| ==> a[i].txid != b[j].txid
  {
    var all := a + b;
    assert forall i :: 0 <= i < |a| ==> all[i] == a[i];
    assert forall j :: 0 <= j < |b| ==> all[|a| + j] == b[j];
  }

  lemma {:induction false} SyncAllKeeps(env: Env, parts: seq<seq<Tx>>)
    requires Verbatim(env) && SequenceOk(env, map[], Flatten(parts)) && FreshTxids(map[], Flatten(parts))
    requires AllAddressed(Flatten(parts))
    ensures Indexes(SyncAll(EMPTY_INDEX, parts), ApplyTxs(env, map[], Flatten(parts)))
  {
    if parts != [] {
      var a, b := Flatten(parts[..|parts| - 1]), parts[|parts| - 1];
      SequenceSplit(env, map[], a, b);
      FreshSplit(env, map[], a, b);
      AddressedParts(a, b);
      SyncAllKeeps(env, parts[..|parts| - 1]);
      CoinsAddressed(env, map[], a);
      CoinsAddressed(env, ApplyTxs(env, map[], a), b);
      SyncKeeps(env, SyncAll(EMPTY_INDEX, parts[..|parts| - 1]), ApplyTxs(env, map[], a), b);
      Rewind.ApplyConcat(env, map[], a, b);
    }
  }

  lemma AddressedParts(a: seq<Tx>, b: seq<Tx>)
    requires AllAddressed(a + b)
    ensures AllAddressed(a) && AllAddressed(b)
  {
    var all := a + b;
    assert forall i :: 0 <= i < |a| ==> all[i] == a[i];
    assert forall j :: 0 <= j < |b| ==> all[|a| + j] == b[j];
  }

  /** However a valid history is cut into consecutive ranges, syncing range by range, each with a fresh map,
      ends in the same two indexes as one full sync; they hold exactly the replayed unspent outputs. */
  lemma IncrementalIsFull(env: Env, parts: seq<seq<Tx>>)
    requires Verbatim(env) && SequenceOk(env, map[], Flatten(parts)) && FreshTxids(map[], Flatten(parts))
    requires AllAddressed(Flatten(parts))
    ensures SyncAll(EMPTY_INDEX, parts) == Sync(EMPTY_INDEX, Flatten(parts))
    ensures Indexes(SyncAll(EMPTY_INDEX, parts), ApplyTxs(env, map[], Flatten(parts)))
  {
    SyncAllKeeps(env, parts);
    var one := [Flatten(parts)];
    assert one[..0] == [] && Flatten(one) == Flatten(parts);
    SyncAllKeeps(env, one);
    assert SyncAll(EMPTY_INDEX, one) == Sync(SyncAll(EMPTY_INDEX, []), Flatten(parts));
    IndexesUnique(SyncAll(EMPTY_INDEX, parts), SyncAll(EMPTY_INDEX, one), ApplyTxs(env, map[], Flatten(parts)));
  }

  // ---- the order blocks arrive in ----

  predicate Ascending(bs: seq<Block>) {
    forall i, j :: 0 <= i < j < |bs| ==> bs[i].header.index <= bs[j].header.index
  }

  ghost predicate StrictlyAscending(bs: seq<Block>) {
    forall i, j :: 0 <= i < j < |bs| ==> bs[i].header.index < bs[j].header.index
  }

  /** Stable insertion by height. */
  function Slot(b: Block, bs: seq<Block>): (r: seq<Block>)
    requires Ascending(bs)
    ensures Ascending(r) && |r| == |bs| + 1
    ensures r[|bs|].header.index
      == if bs == [] || bs[|bs| - 1].header.index <= b.header.index then b.header.index else bs[|bs| - 1].header.index
  {
    if bs == [] || bs[|bs| - 1].header.index <= b.header.index then bs + [b]
    else Slot(b, bs[..|bs| - 1]) + [bs[|bs| - 1]]
  }

  function ByHeight(bs: seq<Block>): (r: seq<Block>)
    ensures Ascending(r)
  {
    if bs == [] then [] else Slot(bs[|bs| - 1], ByHeight(bs[..|bs| - 1]))
  }

  lemma {:induction false} SlotAdds(b: Block, bs: seq<Block>)
    requires Ascending(bs)
    ensures multiset(Slot(b, bs)) == multiset(bs) + multiset{b}
  {
    if bs != [] && bs[|bs| - 1].header.index > b.header.index {
      SlotAdds(b, bs[..|bs| - 1]);
      WholeMultiset(bs);
    }
  }

  lemma {:induction false} ByHeightPermutes(bs: seq<Block>)
    ensures multiset(ByHeight(bs)) == multiset(bs)
  {
    if bs != [] {
      ByHeightPermutes(bs[..|bs| - 1]);
      SlotAdds(bs[|bs| - 1], ByHeight(bs[..|bs| - 1]));
      WholeMultiset(bs);
    }
  }

  lemma {:induction false} SameOrder(a: seq<Block>, b: seq<Block>)
    requires StrictlyAscending(a) && Ascending(b) && multiset(a) == multiset(b)
    ensures a == b
  {
    SameLength(a, b);
    if a != [] {
      SameLast(a, b);
      FrontMultiset(a);
      FrontMultiset(b);
      SameOrder(a[..|a| - 1], b[..|b| - 1]);
      SplitLast(a);
      SplitLast(b);
    }
  }

  lemma SameLength(a: seq<Block>, b: seq<Block>)
    requires multiset(a) == multiset(b)
    ensures |a| == |b|
  {
    assert |multiset(a)| == |a| && |multiset(b)| == |b|;
  }

  lemma SplitLast(s: seq<Block>)
    requires s != []
    ensures s == s[..|s| - 1] + [s[|s| - 1]]
  {
  }

  lemma FrontMultiset(s: seq<Block>)
    requires s != []
    ensures multiset(s[..|s| - 1]) == multiset(s) - multiset{s[|s| - 1]}
  {
    WholeMultiset(s);
  }

  lemma WholeMultiset(s: seq<Block>)
    requires s != []
    ensures multiset(s) == multiset(s[..|s| - 1]) + multiset{s[|s| - 1]}
  {
    SplitLast(s);
  }

  lemma SameLast(a: seq<Block>, b: seq<Block>)
    requires a != [] && |a| == |b| && StrictlyAscending(a) && Ascending(b) && multiset(a) == multiset(b)
    ensures a[|a| - 1] == b[|b| - 1]
  {
    var x, y := a[|a| - 1], b[|b| - 1];
    assert x in multiset(b) && y in multiset(a);
    var i :| 0 <= i < |b| && b[i] == x;
    var j :| 0 <= j < |a| && a[j] == y;
  }

  /** Blocks of a range may arrive in any order: sorting by height gives the chain segment back. */
  lemma ArrivalOrderIrrelevant(arrived: seq<Block>, segment: seq<Block>)
    requires StrictlyAscending(segment) && multiset(arrived) == multiset(segment)
    ensures ByHeight(arrived) == segment
  {
    ByHeightPermutes(arrived);
    SameOrder(segment, ByHeight(arrived));
  }

  /** One sync of a range of blocks as they arrived: sort by height, walk, apply. */
  function SyncRange(x: Index, arrived: seq<Block>): (x': Index) { Sync(x, Rewind.AllTxs(ByHeight(arrived))) }

  function SyncRanges(x: Index, ranges: seq<seq<Block>>): (x': Index) {
    if ranges == [] then x else SyncRange(SyncRanges(x, ranges[..|ranges| - 1]), ranges[|ranges| - 1])
  }

  function Joined(ranges: seq<seq<Block>>): (chain: seq<Block>) {
    if ranges == [] then [] else Joined(ranges[..|ranges| - 1]) + ranges[|ranges| - 1]
  }

  function TxParts(ranges: seq<seq<Block>>): (parts: seq<seq<Tx>>) {
    if ranges == [] then [] else TxParts(ranges[..|ranges| - 1]) + [Rewind.AllTxs(ranges[|ranges| - 1])]
  }

  /** Each range holds the blocks of one segment, the segments being consecutive stretches of a chain. */
  ghost predicate Shuffles(ranges: seq<seq<Block>>, segments: seq<seq<Block>>) {
    |ranges| == |segments|
    && forall i :: 0 <= i < |ranges| ==>
         multiset(ranges[i]) == multiset(segments[i]) && StrictlyAscending(segments[i])
  }

  lemma {:induction false} SortedRanges(x: Index, ranges: seq<seq<Block>>, segments: seq<seq<Block>>)
    requires Shuffles(ranges, segments)
    ensures SyncRanges(x, ranges) == SyncAll(x, TxParts(segments))
  {
    if ranges != [] {
      var front, last := segments[..|segments| - 1], segments[|segments| - 1];
      SortedRanges(x, ranges[..|ranges| - 1], front);
      ArrivalOrderIrrelevant(ranges[|ranges| - 1], last);
      assert TxParts(segments)[..|TxParts(segments)| - 1] == TxParts(front);
    }
  }

  lemma {:induction false} PartsJoin(segments: seq<seq<Block>>)
    ensures Flatten(TxParts(segments)) == Rewind.AllTxs(Joined(segments))
  {
    if segments != [] {
      var front, last := segments[..|segments| - 1], segments[|segments| - 1];
      PartsJoin(front);
      assert TxParts(segments)[..|TxParts(segments)| - 1] == TxParts(front);
      AllTxsJoin(Joined(front), last);
    }
  }

  lemma {:induction false} AllTxsJoin(a: seq<Block>, b: seq<Block>)
    ensures Rewind.AllTxs(a + b) == Rewind.AllTxs(a) + Rewind.AllTxs(b)
  {
    if b == [] {
      assert a + b == a;
    } else {
      DropLastOfJoin(a, b);
      AllTxsJoin(a, b[..|b| - 1]);
      JoinAssociates(Rewind.AllTxs(a), Rewind.AllTxs(b[..|b| - 1]), b[|b| - 1].txs);
    }
  }

  /** However a chain is cut into ranges and in whatever order the blocks of each range arrive, syncing range by range
      ends in the indexes of one full sync of the chain, and these hold exactly the chain's unspent outputs. */
  lemma RangesInAnyOrder(env: Env, ranges: seq<seq<Block>>, segments: seq<seq<Block>>)
    requires Shuffles(ranges, segments) && Verbatim(env)
    requires var txs := Rewind.AllTxs(Joined(segments));
      SequenceOk(env, map[], txs) && FreshTxids(map[], txs) && AllAddressed(txs)
    ensures SyncRanges(EMPTY_INDEX, ranges) == Sync(EMPTY_INDEX, Rewind.AllTxs(Joined(segments)))
    ensures Indexes(SyncRanges(EMPTY_INDEX, ranges), Fold(env, Joined(segments)))
  {
    SortedRanges(EMPTY_INDEX, ranges, segments);
    PartsJoin(segments);
    IncrementalIsFull(env, TxParts(segments));
    assert Joined(segments)[..0] == [] && Joined(segments)[0..] == Joined(segments);
    Rewind.FoldFrom(env, Joined(segments), 0);
  }

  // ---- balances ----

  function PointsIn(eu: map<EuKey, nat>): (ps: set<OutPoint>) { set k | k in eu :: k.point }

  /** The coins the forward index lists under an address. */
  function Listed(eu: map<EuKey, nat>, address: string): (u: UtxoSet) {
    map p | p in PointsIn(eu) && EuKey(address, p) in eu :: Utxo(address, eu[EuKey(address, p)])
  }

  /** The coins of a set that belong to an address. */
  function Owned(u: UtxoSet, address: string): (o: UtxoSet) {
    map p | p in u && u[p].to == address :: u[p]
  }

  lemma ListedIsOwned(x: Index, u: UtxoSet, address: string)
    requires Indexes(x, u)
    ensures Listed(x.eu, address) == Owned(u, address)
  {
    forall p
      ensures p in Listed(x.eu, address) <==> p in Owned(u, address)
      ensures p in Owned(u, address) ==> Listed(x.eu, address)[p] == Owned(u, address)[p]
    {
      if p in Owned(u, address) {
        assert EuKey(address, p) in x.eu;
        assert p in PointsIn(x.eu);
      }
    }
  }

  lemma ListedWithout(eu: map<EuKey, nat>, k: EuKey, address: string)
    requires k in eu
    ensures Listed(eu - {k}, address)
      == if k.address == address then Listed(eu, address) - {k.point} else Listed(eu, address)
  {
    forall p
      ensures p in Listed(eu - {k}, address) <==> EuKey(address, p) in eu && EuKey(address, p) != k
      ensures p in Listed(eu, address) <==> EuKey(address, p) in eu
    {
      if EuKey(address, p) in eu {
        assert p in PointsIn(eu);
        if EuKey(address, p) != k {
          assert EuKey(address, p) in eu - {k};
          assert p in PointsIn(eu - {k});
        }
      }
    }
  }

  lemma TotalWithout(eu: map<EuKey, nat>, k: EuKey, address: string)
    requires k in eu
    ensures Total(Listed(eu, address)) == Total(Listed(eu - {k}, address)) + if k.address == address then eu[k] else 0
  {
    ListedWithout(eu, k, address);
    if k.address == address {
      assert k.point in PointsIn(eu) && EuKey(address, k.point) == k;
      TotalRemove(Listed(eu, address), k.point);
    }
  }

  function Amount(eu: map<EuKey, nat>, k: EuKey, address: string): (n: nat)
    requires k in eu
  {
    if k.address == address then eu[k] else 0
  }

  lemma TotalStep(eu: map<EuKey, nat>, k: EuKey, address: string, sum: nat, total: nat)
    requires k in eu && sum + Total(Listed(eu, address)) == total
    ensures sum + Amount(eu, k, address) + Total(Listed(eu - {k}, address)) == total
    ensures sum + Amount(eu, k, address) <= total
  {
    TotalWithout(eu, k, address);
  }

  lemma TotalOfNone(address: string)
    ensures Total(Listed(map[], address)) == 0
  {
    assert Listed(map[], address) == map[];
  }

  /** get_balance_from_utxos: the sum over the address's entries of the forward index; nothing where adding them up
      overflows 256 bits and the source aborts. */
  method GetBalance(eu: map<EuKey, nat>, address: string) returns (r: Option<nat>)
    ensures r.None? <==> Total(Listed(eu, address)) >= U256_BOUND
    ensures r.Some? ==> r.value == Total(Listed(eu, address))
  {
    var balance: nat := 0;
    ghost var total := Total(Listed(eu, address));
    var rest := eu;
    while rest != map[]
      invariant balance + Total(Listed(rest, address)) == total && balance < U256_BOUND
      decreases |rest|
    {
      var k :| k in rest;
      TotalStep(rest, k, address, balance, total);
      if balance + Amount(rest, k, address) >= U256_BOUND {
        return None;
      }
      balance, rest := balance + Amount(rest, k, address), rest - {k};
    }
    TotalOfNone(address);
    return Some(balance);
  }

  function At(m: map<string, nat>, address: string): (n: nat) { if address in m then m[address] else 0 }

  /** The sums so far and what is left of the index add up to the whole index, for every address. */
  ghost predicate AddsUp(sums: map<string, nat>, rest: map<EuKey, nat>, eu: map<EuKey, nat>) {
    forall a {:trigger At(sums, a)} :: At(sums, a) + Total(Listed(rest, a)) == Total(Listed(eu, a))
  }

  lemma AtNext(sums: map<string, nat>, key: string, amount: nat, a: string)
    ensures At(sums[key := At(sums, key) + amount], a) == At(sums, a) + if a == key then amount else 0
  {
  }

  lemma AddsUpFor(sums: map<string, nat>, rest: map<EuKey, nat>, k: EuKey, a: string, total: nat)
    requires k in rest && At(sums, a) + Total(Listed(rest, a)) == total
    ensures At(sums[k.address := At(sums, k.address) + rest[k]], a) + Total(Listed(rest - {k}, a)) == total
    ensures a == k.address ==> At(sums, a) + rest[k] <= total
  {
    TotalStep(rest, k, a, At(sums, a), total);
    AtNext(sums, k.address, rest[k], a);
  }

  lemma AddsUpNext(sums: map<string, nat>, rest: map<EuKey, nat>, eu: map<EuKey, nat>, k: EuKey)
    requires AddsUp(sums, rest, eu) && k in rest
    ensures At(sums, k.address) + rest[k] <= Total(Listed(eu, k.address))
    ensures AddsUp(sums[k.address := At(sums, k.address) + rest[k]], rest - {k}, eu)
  {
    AddsUpFor(sums, rest, k, k.address, Total(Listed(eu, k.address)));
    forall a {
      AddsUpFor(sums, rest, k, a, Total(Listed(eu, a)));
    }
  }

  function NonZero(sums: map<string, nat>): (m: map<string, nat>) { map a | a in sums && sums[a] != 0 :: sums[a] }

  ghost predicate Below(sums: map<string, nat>) { forall a :: a in sums ==> sums[a] < U256_BOUND }

  /** Some address holds more than 256 bits can say. */
  ghost predicate Overflowing(eu: map<EuKey, nat>) { exists a :: Total(Listed(eu, a)) >= U256_BOUND }

  lemma AddsUpDone(sums: map<string, nat>, eu: map<EuKey, nat>)
    requires AddsUp(sums, map[], eu) && Below(sums)
    ensures !Overflowing(eu)
    ensures forall a :: a in NonZero(sums) <==> Total(Listed(eu, a)) != 0
    ensures forall a :: a in NonZero(sums) ==> NonZero(sums)[a] == Total(Listed(eu, a))
  {
    forall a
      ensures At(sums, a) == Total(Listed(eu, a))
    {
      TotalOfNone(a);
    }
  }

  lemma OverflowShown(eu: map<EuKey, nat>, a: string, sum: nat)
    requires U256_BOUND <= sum <= Total(Listed(eu, a))
    ensures Overflowing(eu)
  {
  }

  lemma BelowNext(sums: map<string, nat>, a: string, sum: nat)
    requires Below(sums) && sum < U256_BOUND
    ensures Below(sums[a := sum])
  {
  }

  /** get_all_balances_from_utxos: every address with a non-zero sum; nothing where one of the sums overflows. */
  method GetAllBalances(eu: map<EuKey, nat>) returns (r: Option<map<string, nat>>)
    ensures r.None? <==> Overflowing(eu)
    ensures r.Some? ==> forall a :: a in r.value <==> Total(Listed(eu, a)) != 0
    ensures r.Some? ==> forall a :: a in r.value ==> r.value[a] == Total(Listed(eu, a))
  {
    var sums: map<string, nat> := map[];
    var rest := eu;
    while rest != map[]
      invariant AddsUp(sums, rest, eu) && Below(sums)
      decreases |rest|
    {
      var k :| k in rest;
      AddsUpNext(sums, rest, eu, k);
      var sum := At(sums, k.address) + rest[k];
      if sum >= U256_BOUND {
        OverflowShown(eu, k.address, sum);
        return None;
      }
      BelowNext(sums, k.address, sum);
      sums, rest := sums[k.address := sum], rest - {k};
    }
    AddsUpDone(sums, eu);
    return Some(NonZero(sums));
  }

  /** After any sequence of syncs of a valid history, the balance read from the index is the value the address
      holds in the replayed set. */
  lemma BalanceIsReplayed(env: Env, parts: seq<seq<Tx>>, address: string)
    requires Verbatim(env) && SequenceOk(env, map[], Flatten(parts)) && FreshTxids(map[], Flatten(parts))
    requires AllAddressed(Flatten(parts))
    ensures Total(Listed(SyncAll(EMPTY_INDEX, parts).eu, address))
            == Total(Owned(ApplyTxs(env, map[], Flatten(parts)), address))
  {
    SyncAllKeeps(env, parts);
    ListedIsOwned(SyncAll(EMPTY_INDEX, parts), ApplyTxs(env, map[], Flatten(parts)), address);
  }
}
