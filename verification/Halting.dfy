/** When the node never accepts another block: the first retarget asks for a target that the validator's own check of
    the step from the last one refuses. */
module Halting {
  import opened Domain
  import opened Compact
  import opened Retarget
  import opened Storage
  import opened Chains
  import opened Consensus
  import opened Runs
  import opened History

  // ---- no block follows a tip whose retarget fails the check ----

  /** The bits asked of the block after the tip fail the check against the tip's own. */
  ghost predicate Deadlocked(p: Params, s: State)
    requires Linked(s.store.blocks)
  {
    s.tip.Some? && !ProgressionOk(Decode(s.bits), Decode(ExpectedBits(p, s, |Path(s)|)))
  }

  /** In such a state every new block whose height fits is refused, whatever it contains and whenever it comes. */
  lemma DeadlockRefuses(env: Env, naming: string -> Tx, p: Params, s: State, b: Block, now: int)
    requires Inv(env, naming, s) && Linked(s.store.blocks) && Deadlocked(p, s)
    requires b.hash !in s.store.blocks && HeightFits(env, b.header)
    ensures Insert(env, p, s, b, now).Err?
  {
    if CheckHeader(env, p, s, b, now, false).Ok? {
      PassedHeaderExtends(env, naming, p, s, b, now);
      TipStored(env, naming, s);
    }
  }

  lemma TipStored(env: Env, naming: string -> Tx, s: State)
    requires Inv(env, naming, s) && Linked(s.store.blocks) && s.tip.Some?
    ensures s.tip.value in s.store.blocks && s.bits == s.store.blocks[s.tip.value].header.bits
    ensures |Path(s)| == s.store.blocks[s.tip.value].header.index + 1
  {
    PathLengths(env, naming, s);
    ChainEntries(s.store.blocks, s.tip.value);
  }

  // ---- the window of the path ----

  lemma {:induction false} WindowOfIndexed(s: Store, path: seq<Block>, n: nat)
    requires n <= |path| && IndexExact(s.index, path)
    requires forall i :: 0 <= i < |path| ==> path[i].hash in s.blocks && s.blocks[path[i].hash] == path[i]
    ensures WindowBelow(s, |path|, n).Some?
    ensures forall i :: 0 <= i < n ==> WindowBelow(s, |path|, n).value[i] == path[|path| - 1 - i].header
  {
    if n > 0 {
      WindowOfIndexed(s, path, n - 1);
    }
  }

  lemma PathRecorded(env: Env, naming: string -> Tx, s: State)
    requires Inv(env, naming, s) && Linked(s.store.blocks) && s.tip.Some?
    ensures IndexExact(s.store.index, Path(s))
    ensures forall i :: 0 <= i < |Path(s)| ==>
      Path(s)[i].hash in s.store.blocks && s.store.blocks[Path(s)[i].hash] == Path(s)[i]
  {
    ChainEntries(s.store.blocks, s.tip.value);
  }

  /** The n headers below the next height are the path's last n, newest first. */
  lemma WindowOfPath(env: Env, naming: string -> Tx, s: State, path: seq<Block>, n: nat)
    requires Inv(env, naming, s) && Linked(s.store.blocks) && s.tip.Some? && path == Path(s) && n <= |path|
    ensures WindowBelow(s.store, |path|, n).Some?
    ensures forall i :: 0 <= i < n ==> WindowBelow(s.store, |path|, n).value[i] == path[|path| - 1 - i].header
  {
    PathRecorded(env, naming, s);
    WindowOfIndexed(s.store, path, n);
  }

  /** One more stored block leaves a complete window as it was. */
  lemma {:induction false} WindowKept(s: Store, s': Store, b: Block, index: nat, n: nat)
    requires n <= index && b.hash !in s.blocks && s'.blocks == s.blocks[b.hash := b] && s'.index == s.index
    requires WindowBelow(s, index, n).Some?
    ensures WindowBelow(s', index, n) == WindowBelow(s, index, n)
  {
    if n > 0 {
      WindowKept(s, s', b, index, n - 1);
    }
  }

  // ---- a deadlock at the first retarget lasts ----

  /** A deadlock at the first retarget, with nothing stored above it and one target in all stored blocks. */
  ghost predicate Halted(env: Env, naming: string -> Tx, p: Params, s: State) {
    && Inv(env, naming, s) && Linked(s.store.blocks) && Deadlocked(p, s) && |Path(s)| == WINDOW
    && forall h :: h in s.store.blocks ==>
         s.store.blocks[h].header.index < WINDOW && s.store.blocks[h].header.bits == s.bits
  }

  /** What a halted node shows: its tip, its path, its unspent outputs and its height index. */
  ghost predicate SameChain(s: State, s': State) {
    && Linked(s.store.blocks) && Linked(s'.store.blocks)
    && s'.tip == s.tip && s'.bits == s.bits && Path(s') == Path(s)
    && s'.store.utxos == s.store.utxos && s'.store.index == s.store.index && s'.store.tip == s.store.tip
  }

  lemma ForkOnStored(env: Env, naming: string -> Tx, p: Params, s: State, b: Block, now: int)
    requires BlocksStored(env, naming, s.store.blocks) && HeightFits(env, b.header)
    requires TurnedAway(env, p, s, b, now) && StoreFork(env, p, s, b, now).Ok?
    ensures b.header.previous in s.store.blocks && b.header.bits == ExpectedBits(p, s, b.header.index)
    ensures var parent := s.store.blocks[b.header.previous].header;
      b.header.index == parent.index + 1 && ProgressionOk(Decode(parent.bits), Decode(b.header.bits))
  {
    var parent := b.header.previous;
    assert parent in s.store.blocks && BlockStored(env, naming, parent, s.store.blocks[parent]);
  }

  lemma ForkStaysLow(env: Env, naming: string -> Tx, p: Params, s: State, b: Block, now: int)
    requires Halted(env, naming, p, s) && TurnedAway(env, p, s, b, now) && StoreFork(env, p, s, b, now).Ok?
    requires HeightFits(env, b.header)
    ensures b.header.index < WINDOW && b.header.bits == s.bits
  {
    ForkOnStored(env, naming, p, s, b, now);
  }

  lemma ForkKeepsHalted(env: Env, naming: string -> Tx, p: Params, s: State, b: Block, now: int)
    requires Halted(env, naming, p, s) && TurnedAway(env, p, s, b, now) && StoreFork(env, p, s, b, now).Ok?
    requires WellNamed(env, naming, b)
    ensures var s' := StoreFork(env, p, s, b, now).value; Halted(env, naming, p, s') && SameChain(s, s')
  {
    var s' := StoreFork(env, p, s, b, now).value;
    ForkStaysLow(env, naming, p, s, b, now);
    StoreForkKeeps(env, naming, p, s, b, now);
    WindowOfPath(env, naming, s, Path(s), WINDOW);
    WindowKept(s.store, s'.store, b, WINDOW, WINDOW);
  }

  lemma NothingToMoveTo(env: Env, naming: string -> Tx, p: Params, s: State, h: string)
    requires Halted(env, naming, p, s)
    ensures Reorganize(p, s, h).Ok? ==> Reorganize(p, s, h).value.state == s
  {
    TipStored(env, naming, s);
  }

  /** No operation changes what a halted node shows, and it stays halted. */
  lemma StepKeepsHalted(env: Env, naming: string -> Tx, p: Params, s: State, e: Event, s': State)
    requires Halted(env, naming, p, s) && Step(env, naming, p, s, e, s')
    ensures Halted(env, naming, p, s') && SameChain(s, s')
  {
    match e
    case Inserting(b, now) =>
      if b.hash !in s.store.blocks && HeightFits(env, b.header) {
        DeadlockRefuses(env, naming, p, s, b, now);
      }
    case StoringFork(b, now) =>
      if StoreFork(env, p, s, b, now).Ok? {
        ForkKeepsHalted(env, naming, p, s, b, now);
      }
    case Reorganizing(h) => NothingToMoveTo(env, naming, p, s, h);
  }

  lemma StillSame(s: State, a: State, b: State)
    requires SameChain(s, a) && SameChain(a, b)
    ensures SameChain(s, b)
  {
  }

  lemma RunKeepsHalted(env: Env, naming: string -> Tx, p: Params, states: seq<State>, events: seq<Event>, first: State,
                       k: nat)
    requires IsRun(env, naming, p, states, events) && k < |events|
    requires Halted(env, naming, p, states[k]) && SameChain(first, states[k])
    ensures Halted(env, naming, p, states[k + 1]) && SameChain(first, states[k + 1])
  {
    var s, s' := states[k], states[k + 1];
    StepKeepsHalted(env, naming, p, s, events[k], s');
    StillSame(first, s, s');
  }

  lemma {:induction false} Persists(holds: State -> bool, states: seq<State>, i: nat, j: nat)
    requires i <= j < |states| && holds(states[i])
    requires forall k :: i <= k < j && holds(states[k]) ==> holds(states[k + 1])
    ensures holds(states[j])
  {
    if i < j {
      Persists(holds, states, i, j - 1);
    }
  }

  /** Once halted, a run stays halted, and its chain never changes again. */
  lemma HaltedForever(env: Env, naming: string -> Tx, p: Params, states: seq<State>, events: seq<Event>, i: nat, j: nat)
    requires IsRun(env, naming, p, states, events) && i <= j < |states| && Halted(env, naming, p, states[i])
    ensures Halted(env, naming, p, states[j]) && SameChain(states[i], states[j])
  {
    var first := states[i];
    var holds := s => Halted(env, naming, p, s) && SameChain(first, s);
    forall k | i <= k < j && holds(states[k])
      ensures holds(states[k + 1])
    {
      RunKeepsHalted(env, naming, p, states, events, first, k);
    }
    Persists(holds, states, i, j);
  }
}
