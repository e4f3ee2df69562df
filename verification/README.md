# Astram chain model

A Dafny 4.11 model of the Astram node's chain state machine, its difficulty arithmetic, and the programs around it
that must agree with it (explorer, wallets, mining pool, mempool, orphan pool), with proofs of what they keep.
`dafny verify dfyconfig.toml` checks everything.

## What is modelled

**The node.** The database is five maps (`b:`, `t:`, `u:`, `i:`, `tip`); a write batch is a sequence of operations, the
last one on a key deciding; reads see committed state only. `Node.Blockchain` is the object with its loops and batches.
`Consensus` says what each operation does to the state as a whole, and the methods are proved equal to it. `Ledger` is
the independent reference: transactions applied one after the other to a set of unspent outputs. The main theorem,
`History.StateIsFoldOfPath`, says that in every state of every run of insertions, stored fork blocks and
reorganizations the incremental state is that fold along the tip's path. `Admission`, `Ownership`, `Adoption` and
`Difficulty` say what every stored block has shown, under whose keys outputs leave, when a branch is adopted and which
target is asked for next. `Sources` says when rollback finds the transactions it needs, and `Rivals` follows one
concrete run in which it stops finding them. `Gaps`, `Minting` and `FirstRetarget` are runs that end where a hypothesis
below, or a promise of the code, fails.

**Difficulty.** The compact codec, the 24-block retarget and the median-time rule, with the loops as methods.

**Around the node.** The explorer's two indexes against a replay; the three coin-selection loops against one fee
sequence; share classification by hex prefix, by number and byte by byte; pool credits over whole runs; the orphan
pool and its retry loop on a real `Node.Blockchain`; the mempool under every interleaving of its handlers.

Hashing, signatures, address derivation, case folding and encoded sizes are arbitrary functions (`Domain.Env`). Clocks
are parameters. 256-bit numbers are naturals, with saturation, truncation and the aborting additions of block
validation written out.

## What the proofs take for granted about submitted blocks

The code does not establish these, so they are hypotheses of the run theorems, all in `History.Step`:

- a block's height is one above its parent's (`Runs.HeightFits`; `Undoing.IndexKeptIff` shows that the height index
  survives an insertion exactly then, and `Gaps.WrongHeightAccepted` has accepted blocks of every height from 2 to 23
  on top of genesis);
- one txid names one transaction (`Rewind.Named`), and the txids of an inserted block are not already unspent. A
  coinbase carries no height, so the second can fail: `Gaps.RepeatedCoinbaseAccepted` is a block that is accepted with
  the coinbase of the block below it, and that cannot be rolled back without losing an unspent output;
- an inserted block consumes no outpoint twice and contains no spend of an output of its own (`Runs.Separate`).
  `Acceptance.AcceptedIsGoodIff` and `TxRules.InsertMatchesLedgerIff` prove that these two are exactly what is missing
  when txids are fresh, and `Acceptance.AcceptedIsInTurnIff` gives the exact condition whatever the txids;
  `Gaps.DoubleSpendAccepted` and `Gaps.ChainedSpendAccepted` are blocks that insertion accepts and that break them;
- the branch a reorganization moves to is transaction-valid on its own. Nothing checks that:
  `Minting.InvalidBranchAdopted` is a run that moves to a branch which holds more than the maximum supply;
- fork blocks are stored after insertion has turned them away, as the node's block handler does;
- the tip is not stale. What happens when it is stale is in `Node.Blockchain.ReorganizeIfNeeded`: the tip moves to a
  highest stored block, nothing else does, and the answer is false.

These hypotheses can be met together: `Rivals.RunThatMoves` is a run from a fresh database that ends in a
reorganization that moves. No hypothesis about address case is needed: the results hold after folding the case of
addresses (`Ledger.Canon`).

## Where the code does less than its comments or documents say

- The retarget comment promises that the validator never rejects its result. It does for exactly six previous
  targets: 5, 6, 7, 10, 11 and 15 (`Retarget.ValidatorAcceptsRetargetIff`; over runs, `History.TargetJumpOnlyAtSix`).
  When it does, no block can follow (`Halting.DeadlockRefuses`). `FirstRetarget.HaltingRun` is a run with 24 blocks one
  second apart that gets there, and from there no run ever changes the chain again (`Halting.HaltedForever`).
- `max_supply` holds for exactly `Rewards.CAPPED_HEIGHTS` heights, because the era number is cut to 32 bits.
- Rollback deletes `t:` entries that were stored before the rolled-back block; it restores `t:` exactly when there were
  none (`Undoing.InsertThenRollback`; `Rivals.RollbackLosesShared` is a run in which it does not).
- Replay never writes `t:`, so when two rival branches contain the same transaction, moving from one to the other loses
  its entry. `Sources` proves exactly when a move does this and exactly which later rollbacks then fail, and that a run
  without shared transactions never fails for this reason (`Sources.RunNeverStuck`). `Rivals.SharedPaymentStrands` is a
  run after which a longer branch of good blocks is stored and the node cannot move to it.
- A Merkle root binds the leaves of a list of known length and nothing more: for any two different lengths there are
  lists with the same root (`Merkle.RootBindsIff`; `Merkle.RepeatedLastLeaf` is the collision the padding makes).
- `initial_pool_difficulty` is safe exactly for targets up to 16^63 (`Shares.InitialDifficultyExactIff`), which covers
  every target within the proof-of-work limit. The miner's target agrees with the pool's prefix exactly for
  difficulties 1 to 63 (`Shares.MinerMatchesPoolIff`).
- The mempool's byte limit is enforced only when there are more than 10000 transactions (`Mempool.LimitsMetIff`):
  `Poisoning.OversizedRun` ends with 10000 transactions of 300,010,000 bytes that enforcement leaves alone.
- Enforcing the mempool limits aborts inside the lock exactly when more than 10000 unexpired transactions are pending
  and the fee estimate of one of them does not fit (`Poisoning.EnforceAbortsIff`), which up to 18 inputs it always does
  and from 19 on it need not (`Poisoning.InputsDecideIff`). `Poisoning.PoisonedRun` is a run that gets there; from then
  on the pool never changes (`Poisoning.PoisonFreezes`); and no run gets there while every submitted transaction has an
  estimate (`Poisoning.LightRunsNeverAbort`).

## Model

| member | source | states |
|---|---|---|
| `History.StateIsFoldOfPath` | core/src/blockchain/mod.rs:351-613 | in every state of every run, `u:` is the fold of the blocks on the tip's path (address case aside), `i:` is defined exactly for the path's heights and names its blocks, and the difficulty is the tip's |
| `History.RunKeeps` | core/src/blockchain/mod.rs:1213-1376 | the whole invariant behind it holds in every state of every run |
| `History.StepKeeps` | core/src/blockchain/mod.rs:1213-1376 | each accepted or refused insertion, stored fork block and reorganization keeps that invariant |
| `History.SupplyBounded` | core/src/config.rs:9-50 | in every state of every run the unspent total is at most the rewards of the path's heights, below 210000 * 2^32 heights less than 3,360,000 ASRM, and up to 12 * 210000 * 2^32 + 210000 heights at most the maximum supply |
| `History.InsertConserves` | core/src/blockchain/mod.rs:485-612 | an accepted new block that is separate from what is unspent changes the unspent total by exactly its coinbase output less the fees the code adds up, so by at most the reward |
| `History.PlanJoinsPaths` | core/src/blockchain/mod.rs:1325-1346 | the two lists of a reorganization are exactly the branches above the last shared block: shared part plus either list is that branch's whole path; at most `max_reorg_depth` blocks go |
| `History.ReorganizationRaisesTip` | core/src/blockchain/mod.rs:1254-1376 | a reorganization that answers true lands on the new block's whole path, strictly longer than the old one, with both tips at its end and that block's bits; one that answers false changes nothing |
| `History.StepNeverLowersTip` | core/src/blockchain/mod.rs:1254-1270 | no operation shortens the tip's path |
| `History.ExpectedInRange` | core/src/blockchain/mod.rs:700-806 | the bits asked of the next block decode to a non-zero target within the limit when all stored ones do |
| `History.RunKeepsTargets` | core/src/blockchain/mod.rs:391-402 | along every run with height-0 blocks in range, every stored target and every target ever asked for is non-zero and within the limit |
| `History.TargetJumpOnlyAtSix` | core/src/blockchain/mod.rs:446-471 | in every state of every run with height-0 blocks in range, a block whose height fits is refused for jumping in difficulty only when its parent's target is 5, 6, 7, 10, 11 or 15 |
| `History.RestartRestores` | core/src/blockchain/mod.rs:108-168 | opening the database again in any state of any run gives that state back: tip and difficulty in memory are always what the database says |
| `Rivals.RunThatMoves` | core/src/blockchain/mod.rs:1213-1376 | the hypotheses about runs can be met: a run from a fresh database that ends in a reorganization that moves, onto a good path of four blocks; the move leaves an unspent output of the new path without its `t:` entry |
| `Rivals.SharedPaymentStrands` | core/src/blockchain/mod.rs:1396-1420 | a run after which a longer branch of good blocks is stored, one block would have to be rolled back, and the reorganization fails because a transaction it spends is no longer stored |
| `Rivals.RollbackLosesShared` | core/src/blockchain/mod.rs:1419-1420 | a run after which a transaction is stored with a fork block; a block containing it is accepted, rolled back, and the transaction's entry is gone |
| `Adoption.StaleIff` | core/src/blockchain/mod.rs:1226-1252 | in a state of the invariant the tip is recovered instead of compared if and only if more than 100 blocks are stored and the tip's path holds fewer than half of them |
| `Adoption.MovesIff` | core/src/blockchain/mod.rs:1254-1346 | a reorganization to a stored block with a whole path moves if and only if that path is longer than the tip's, parts from it within the depth limit, and the transactions its rollback needs are stored; it fails if and only if the path is longer and one of the other two is not so |
| `Adoption.LongerBranchAdopted` | core/src/blockchain/mod.rs:1213-1376 | so a good longer branch is adopted, whole, whenever the tip's path holds at least half of the stored blocks or these are at most 100 |
| `Admission.PassedIff` | core/src/blockchain/mod.rs:363-483 | a header passes, on the tip or as a fork block, if and only if its hash is right, a block of height 0 is the genesis block, the hash as a number is below the stated target, the time is not too far ahead, the root is that of its txids, and above height 0 it has the bits asked for, a stored parent (the tip), neither target five times the other, and a time after the median |
| `Admission.AcceptedIsVetted` | core/src/blockchain/mod.rs:245-383 | whatever insertion accepts anew and whatever is stored as a fork block has shown its work, time and root |
| `Admission.RefusalIsReal` | core/src/blockchain/mod.rs:363-483 | each of the ten header errors is given only for what it names; one whose hash and checkpoint are right is refused for its work exactly when its hash is not below the target |
| `Admission.RunStoresVetted` | core/src/blockchain/mod.rs:224-613 | in every state of every run each stored block was submitted by an earlier operation, at a time when its work, time and root were checked |
| `Admission.RunKeepsWork` | core/src/blockchain/mod.rs:99-106 | in every state of every run the hash of each stored block is below the target its header states |
| `Admission.HashFixesTxids` | core/src/block/mod.rs:59-95 | with collision-free hashes, two vetted blocks with one hash and equally many transactions have the same header and the same txids in order |
| `Ownership.SpentByOwner` | core/src/blockchain/mod.rs:511-560 | in an accepted block every transaction with inputs is signed and every input is under a key of the address of the coin the reference ledger holds at that point, or held before the block if a transaction before consumed it |
| `Ownership.RunReleasesToOwners` | core/src/blockchain/mod.rs:511-598 | along every run an insertion removes an unspent output only if a signed transaction of the block spends it under a key of the output's address, and leaves every other output as it was |
| `Gaps.WrongHeightAccepted` | core/src/blockchain/mod.rs:404-434 | after genesis a block of any height from 2 to 23 naming it as parent is accepted, and the height index then holds exactly 0 and that height |
| `Gaps.DoubleSpendAccepted` | core/src/blockchain/mod.rs:523-550 | a run after which a block with fresh txids and a fitting height is accepted although two of its transactions consume one outpoint; the unspent total then rises by more than the reward |
| `Gaps.ChainedSpendAccepted` | core/src/blockchain/mod.rs:532-536 | a run after which a block is accepted in which one transaction spends an output of another, and that output is still in `u:` afterwards |
| `Gaps.RepeatedCoinbaseAccepted` | core/src/transaction/mod.rs:55-77 | a run after which a block with the coinbase of the genesis block is accepted and leaves `u:` as it was; rolling it back leaves `u:` empty |
| `Minting.InvalidBranchAdopted` | core/src/blockchain/mod.rs:326-347 | a run after which a reorganization moves to a longer stored branch that is not good and leaves more than the maximum supply unspent |
| `Halting.DeadlockRefuses` | core/src/blockchain/mod.rs:446-471 | when the bits asked of the block after the tip fail the factor-four check against the tip's, every new block whose height fits is refused, whatever it contains and whenever it comes |
| `Halting.StepKeepsHalted` | core/src/blockchain/mod.rs:391-471 | when that happens at the first retarget, with one target in all stored blocks and none above the tip, no operation changes tip, path, unspent outputs, height index or difficulty, and the node stays so |
| `Halting.HaltedForever` | core/src/blockchain/mod.rs:391-471 | so every continuation of a run that gets there stays on that chain for ever |
| `Halting.WindowOfPath` | core/src/blockchain/mod.rs:713-744 | the headers the retarget reads for the next height are the last ones of the tip's path, newest first |
| `FirstRetarget.HaltingRun` | core/src/blockchain/mod.rs:776-790 | with a 60-second interval, a run of a genesis block of target 5 and 23 empty blocks one second apart ends so; every height-0 block of it is in range |
| `Sources.CanUndoIff` | core/src/blockchain/mod.rs:1396-1402 | rolling a good chain back to a position works if and only if nothing above it spends an output of a chain transaction that is no longer stored |
| `Sources.StockedCanUndo` | core/src/blockchain/mod.rs:1380-1433 | while the transactions of all stored blocks are stored, every unspent output is backed by its transaction and every rollback along the path works |
| `Sources.MovedStockedIff` | core/src/blockchain/mod.rs:1419-1420 | a reorganization keeps that if and only if no remaining block contains a rolled-back transaction |
| `Sources.MovedBackedIff` | core/src/blockchain/mod.rs:1419-1471 | after a reorganization every unspent output is backed if and only if none that the new branch leaves unspent belongs to a rolled-back transaction |
| `Sources.NextRollbackIff` | core/src/blockchain/mod.rs:1396-1402 | the rollback after a reorganization works if and only if nothing it undoes spends an output of a transaction the reorganization had rolled back |
| `Sources.RunNeverStuck` | core/src/blockchain/mod.rs:1213-1376 | in every state of every run whose reorganizations roll back no transaction of a remaining block, no reorganization fails for want of a spent transaction |
| `Ancestry.RunKeepsMedianTime` | core/src/blockchain/mod.rs:652-694 | in every state of every run, along every whole stored path each block is later than the median of its up to 11 predecessors and median-time-past never decreases, through any rollbacks in between |
| `Ancestry.OneWay` | core/src/block/mod.rs:52-56 | a collision-free header hash fixes the whole line of headers below it |
| `Runs.InsertKeeps` | core/src/blockchain/mod.rs:485-612 | an accepted insertion keeps the invariant |
| `Runs.StoreForkKeeps` | core/src/blockchain/mod.rs:326-347 | a stored fork block keeps the invariant and the tip's path |
| `Runs.ReorganizeKeeps` | core/src/blockchain/mod.rs:1348-1376 | a reorganization keeps the invariant, and when it moves, the path is the new block's |
| `Runs.PassedHeaderExtends` | core/src/blockchain/mod.rs:404-434 | a block whose height fits and that passes the header checks of insertion extends the tip by one or starts an empty chain |
| `Runs.PassedHeaderOnTip` | core/src/blockchain/mod.rs:404-434 | whatever height it claims, a new block that passes them names the tip as its parent, or starts an empty chain |
| `Runs.UndoIndex` | core/src/blockchain/mod.rs:1422-1427 | rolling back leaves `i:` exact for the shortened path |
| `Runs.ReplayIndex` | core/src/blockchain/mod.rs:1463-1464 | replaying leaves `i:` exact for the extended path |
| `Undoing.InsertThenRollback` | core/src/blockchain/mod.rs:1380-1433 | after any list of accepted insertions, the one rollback batch over the reversed list restores `u:`, `b:` and `i:`, however later transactions spend earlier ones; and `t:` exactly when no rolled-back txid was stored before |
| `Undoing.IndexKeptIff` | core/src/blockchain/mod.rs:600-604 | a newly accepted block names the tip as its parent or starts an empty chain, and the height index then names the longer path if and only if the block claims the next height |
| `Ledger.UndoExactIff` | core/src/blockchain/mod.rs:1387-1420 | undoing a list of transactions gives back the earlier set if and only if the touched outpoints that were unspent before are exactly those the list spends first |
| `Ledger.ValidListIsUndoable` | core/src/blockchain/mod.rs:522-595 | every valid list meets that condition |
| `Rewind.RollbackReachesPrefix` | core/src/blockchain/mod.rs:1380-1433 | rolling back the blocks above height n from the fold of a chain gives the fold of its first n blocks |
| `Rewind.ReplayReachesChain` | core/src/blockchain/mod.rs:1436-1471 | replaying the rest of a good chain gives the fold of the whole chain |
| `Rewind.UndoValid` | core/src/blockchain/mod.rs:1396-1417 | undoing a valid list whose sources are stored gives the earlier set back |
| `Storage.LastOperationWins` | core/src/blockchain/mod.rs:1393-1414 | after a commit an outpoint holds what the last operation of the batch on it says, or what it held before |
| `Storage.ReplayLeaves` | core/src/blockchain/mod.rs:1443-1461 | a replayed transaction puts its outputs and then deletes what it spends |
| `TxRules.InsertMatchesLedgerIff` | core/src/blockchain/mod.rs:532-550 | an accepted block leaves `u:` as the reference ledger does if and only if no transaction spends an output made in the same block |
| `TxRules.PassTracks` | core/src/blockchain/mod.rs:497-595 | where the pass stands after an accepted list, in closed form |
| `Acceptance.PassAcceptsIff` | core/src/blockchain/mod.rs:485-598 | the transaction pass accepts a block with no outpoint consumed twice if and only if it is good by the reference rules, signed, owned, above the minimum fee and within 256 bits |
| `Acceptance.AcceptedIsGoodIff` | core/src/blockchain/mod.rs:523-530 | an accepted block with fresh txids is good if and only if it consumes no outpoint twice |
| `Acceptance.CheckTxsIff` | core/src/blockchain/mod.rs:504-595 | the pass over a list accepts it, with these fees, if and only if the reference rules and policies do |
| `Acceptance.AcceptedIsInTurnIff` | core/src/blockchain/mod.rs:485-598 | an accepted block, whatever its txids, is good if and only if every outpoint is there when it is consumed and not there when it is created |
| `Acceptance.InputRefusalIsReal` | core/src/blockchain/mod.rs:525-556 | an input is refused only when its output is nowhere, its key has no address or not the output's, or the sum is too large |
| `Acceptance.TxRefusalIsReal` | core/src/blockchain/mod.rs:505-584 | a transaction whose inputs can be taken is refused only for its signature, for paying out more than it takes in, for a fee below 10^14 plus 2 * 10^11 per byte, or for a sum too large |
| `Acceptance.BlockRefusalIsReal` | core/src/blockchain/mod.rs:485-598 | a block whose transactions pass is refused only for a coinbase above reward plus fees or a sum too large |
| `Supply.TxConserves` | core/src/blockchain/mod.rs:562-572 | a valid transaction removes what it takes in and adds what it pays out |
| `Supply.BlockConserves` | core/src/blockchain/mod.rs:589-598 | a good block changes the unspent total by its coinbase output less its fees, so by at most the reward |
| `Supply.ChainWithinIssued` | core/src/blockchain/mod.rs:589-598 | a good chain never holds more than the rewards of its heights |
| `Chains.SharedIffCommon` | core/src/blockchain/mod.rs:1183-1209 | a block is on both paths if and only if it is in their common prefix |
| `Node.Blockchain.constructor` | core/src/blockchain/mod.rs:108-168 | opens a database: the stored tip, and the difficulty of its block, or the limit bits when there is no tip or its block is missing |
| `Node.Blockchain.CalculateAdjustedDifficulty` | core/src/blockchain/mod.rs:700-806 | the loops compute the expected bits as the retarget functions define them, including the fallbacks for missing entries |
| `Node.Blockchain.GatherWindow` | core/src/blockchain/mod.rs:708-749 | the loop yields the running average, end times and newest bits of the 24 indexed headers, or nothing when one is missing |
| `Node.Blockchain.ValidateMedianTimePast` | core/src/blockchain/mod.rs:652-694 | accepts exactly the blocks later than the median of the walked-back timestamps |
| `Node.Blockchain.CollectTimes` | core/src/blockchain/mod.rs:655-669 | the walk collects up to 11 timestamps, stopping at genesis or a gap |
| `Node.Blockchain.MerkleRoot` | core/src/blockchain/mod.rs:473-478 | the root of a block's txids |
| `Node.Blockchain.ValidateHeader` | core/src/blockchain/mod.rs:363-483 | checks 1 to 8 in order, with their errors; for fork blocks without the comparison with the tip |
| `Node.Blockchain.ValidateOrigin` | core/src/blockchain/mod.rs:363-434 | checks 1 to 4; a tip whose block is missing is replaced by a highest stored block exactly when every check before the comparison with the tip passes |
| `Node.Blockchain.ValidateAndInsertBlock` | core/src/blockchain/mod.rs:351-613 | the batch, once committed, gives exactly the state of `Consensus.Insert`, and every error leaves everything unchanged; only when the tip's block is missing and the block reaches the comparison with the tip does all this start from the recovered tip |
| `Node.Blockchain.ValidateForkBlock` | core/src/blockchain/mod.rs:224-348 | stores the block and its transactions and nothing else; every error leaves everything unchanged |
| `Node.Blockchain.FindCommonAncestor` | core/src/blockchain/mod.rs:1183-1209 | terminates, returns the last block of the paths' common prefix, and nothing exactly when there is none |
| `Node.Blockchain.CollectHashes` | core/src/blockchain/mod.rs:1184-1194 | exactly the hashes on the path |
| `Node.Blockchain.CollectAbove` | core/src/blockchain/mod.rs:1325-1346 | exactly the blocks of the path above the ancestor, newest first |
| `Node.Blockchain.RollbackBlocks` | core/src/blockchain/mod.rs:1380-1433 | the single batch undoes every block against the committed transactions, or fails without a trace when a spent transaction is missing |
| `Node.Blockchain.ReplayAll` | core/src/blockchain/mod.rs:1436-1471 | one batch per block replays them all |
| `Node.Blockchain.RecoverTip` | core/src/blockchain/mod.rs:1522-1565 | moves the tip to a block of greatest height and touches nothing else |
| `Node.Blockchain.MakePlan` | core/src/blockchain/mod.rs:1278-1346 | finds the fork point, enforces the depth limit and collects both branches |
| `Node.Blockchain.MoveTip` | core/src/blockchain/mod.rs:1278-1376 | all or nothing: the moved state, or an error and the old state |
| `Node.Blockchain.ReorganizeIfNeeded` | core/src/blockchain/mod.rs:1213-1376 | every error and every false leaves the state unchanged, every true gives the rolled-back and replayed state; on a stale tip only the tip moves and the answer is false; a good longer branch within the depth limit whose rollback finds its transactions is adopted whole, with answer true, whenever the tip's path holds at least half of the stored blocks or these are at most 100 |
| `Batches.QueueBlock` | core/src/blockchain/mod.rs:485-598 | the queued operations, committed, give the pass's new `u:` and `t:`; or the pass's first error |
| `Batches.QueueTx` | core/src/blockchain/mod.rs:522-585 | one transaction's checks and operations |
| `Batches.QueueInput` | core/src/blockchain/mod.rs:525-560 | an input is resolved from the block's own outputs first, then the committed set, and only the latter queues a delete |
| `Batches.QueueUndoBlock` | core/src/blockchain/mod.rs:1387-1427 | the queued operations, committed, undo the block; fails exactly when a source is missing |
| `Batches.QueueReplayBlock` | core/src/blockchain/mod.rs:1440-1466 | the batch, committed, replays the block |
| `Compact.Decode` | core/src/blockchain/mod.rs:39-51 | the decoded target is below 2^256 for every 32-bit pattern and beyond |
| `Compact.TargetToCompact` | core/src/blockchain/mod.rs:53-81 | the byte loop computes the arithmetic encoding |
| `Compact.RoundTrip` | core/src/blockchain/mod.rs:39-81 | encoding then decoding rounds down to a whole unit of the last kept place and does nothing else |
| `Compact.DecodeIsScaled` | core/src/blockchain/mod.rs:39-51 | every bit pattern decodes to its low 23 bits times 256 to the power of its high byte less three places, rounded down and cut to 256 bits |
| `Compact.CodecBounds` | core/src/blockchain/mod.rs:39-81 | the decoded value is at most the target, within one unit, exact up to 0x7fffff and non-zero for non-zero targets |
| `Compact.EncodeMonotone` | core/src/blockchain/mod.rs:53-81 | monotone both as raw numbers and as decoded targets |
| `Compact.EncodeIdempotent` | core/src/blockchain/mod.rs:39-81 | encoding a decoded encoding changes nothing |
| `Compact.UnitSmall` | core/src/blockchain/mod.rs:53-81 | a unit is at most one part in 32768 of the target |
| `Compact.PowLimitDecodes` | core/src/blockchain/mod.rs:95-97 | the limit bits decode to the limit |
| `Retarget.AverageBetween` | core/src/blockchain/mod.rs:731-744 | the running floored average stays between the smallest and largest target |
| `Retarget.AverageShortfall` | core/src/blockchain/mod.rs:731-744 | n times the average falls short of the sum by at most n(n-1)/2 |
| `Retarget.WindowShortfall` | core/src/blockchain/mod.rs:731-744 | for 24 targets within the limit by at most 276 |
| `Retarget.ScaledExact` | core/src/blockchain/mod.rs:756-758 | scaling is exact while the product is below 2^256 and never too large |
| `Retarget.BitsMonotoneInSpan` | core/src/blockchain/mod.rs:751-793 | a longer measured span never gives harder bits, through saturation, both clamps and compaction |
| `Retarget.RetargetStaysInRange` | core/src/blockchain/mod.rs:756-793 | the returned bits decode to a non-zero target within the limit |
| `Retarget.NextTargetIs` | core/src/blockchain/mod.rs:751-793 | the value: average times measured time over 24 intervals, the time held between a third and three times that, the product below 2^256, the result between 1 and the limit and within a factor four of the previous target |
| `Retarget.PaceDecides` | core/src/blockchain/mod.rs:751-793 | where no limit binds, 24 intervals give the average itself, 72 or more give three times it, 8 or fewer a third of it |
| `Retarget.ZeroCountsAsEasiest` | core/src/blockchain/mod.rs:728-731 | headers whose bits decode to nothing count as targets at the limit |
| `Difficulty.PaceOfPath` | core/src/blockchain/mod.rs:700-806 | in a state of the invariant, after 24 blocks of one target on the tip's path, the node asks for that target, three times it or a third of it when they came on time, three times too slowly or three times too fast |
| `Retarget.ClampedPasses` | core/src/blockchain/mod.rs:446-471 | compaction cannot push a clamped target past the validator's factor four, six small targets excepted |
| `Retarget.BadPrevious` | core/src/blockchain/mod.rs:776-790 | for each of the six, a window of targets in range, each step of which the validator accepts, and whose result it rejects |
| `Retarget.ValidatorAcceptsRetargetIff` | core/src/blockchain/mod.rs:776-790 | the validator accepts the result for every window of targets in range, each step of which it accepts, if and only if the newest target is none of the six |
| `MedianTime.SortPermutes` | core/src/blockchain/mod.rs:676-682 | the sorted window is a permutation of the window |
| `MedianTime.OddMedian` | core/src/blockchain/mod.rs:676-682 | the median of an odd number of times is one of them, with at most half below and at most half above |
| `MedianTime.EvenMedian` | core/src/blockchain/mod.rs:676-682 | the median of an even number is the mean of the two middle ranks, rounded toward zero |
| `MedianTime.RankExists` | core/src/blockchain/mod.rs:676-682 | every rank is taken by exactly one value, an element of the list |
| `MedianTime.SlideRaisesMedian` | core/src/blockchain/mod.rs:676-691 | one more block later than the median never lowers the median, while the window grows and when it slides, with truncating division |
| `MedianTime.MedianTimeNeverDecreases` | core/src/blockchain/mod.rs:652-694 | along timestamps that obey the rule, median-time-past never decreases |
| `Timeline.TimesBackIsNewest` | core/src/blockchain/mod.rs:658-669 | walking back from a block of a whole path reads the newest timestamps of that path |
| `Timeline.TwoPredecessors` | core/src/blockchain/mod.rs:676-691 | on a path of two blocks a block is accepted by the rule if and only if it is later than the mean of their times |
| `Timeline.ElevenPredecessors` | core/src/blockchain/mod.rs:652-691 | on a path of eleven or more if and only if it is later than the sixth of the last eleven times |
| `Merkle.ComputeRoot` | core/src/block/mod.rs:59-95 | the level-by-level loop computes the recursive tree with the last node repeated |
| `Merkle.NextLevel` | core/src/block/mod.rs:77-92 | one level of it |
| `Merkle.SmallTrees` | core/src/block/mod.rs:59-95 | left before right, and the last of an odd row with itself |
| `Merkle.RootBinds` | core/src/block/mod.rs:59-95 | with a collision-free pair hash, equal roots of equal-length lists mean equal lists |
| `Merkle.RootBindsIff` | core/src/block/mod.rs:59-95 | with a collision-free pair hash, equal roots of lists of two given non-zero lengths always mean equal lists if and only if the lengths are equal |
| `Merkle.RepeatedLastLeaf` | core/src/block/mod.rs:78-81 | an odd list of three or more has the root of itself with the last leaf repeated |
| `Rewards.DefaultFee` | core/src/config.rs:55-64 | the wallets' default fee meets the validator's minimum for the same size |
| `Rewards.Cut32IsRemainder` | core/src/config.rs:41-42 | the cast keeps the era number modulo 2^32 |
| `Rewards.IssuedBounded` | core/src/config.rs:9-50 | the rewards of all heights below 210000 * 2^32 sum to less than 3,360,000 ASRM |
| `Rewards.SupplyCapIff` | core/src/config.rs:17-50 | the rewards of the first n heights respect the maximum supply if and only if n is at most an exact number |
| `Explorer.ExtractTransactions` | explorer/src/rpc.rs:383-621 | the nested loops yield the map, the creations and the spends of the walk |
| `Explorer.ExplorerDb.ApplyUtxoChanges` | explorer/src/db.rs:733-771 | the batch, written, puts all creations and then drops all spends, with missing addresses looked up in the committed reverse index |
| `Explorer.SyncKeeps` | explorer/src/db.rs:733-771 | a sync with a fresh map keeps both indexes mutually inverse and equal to the replayed set |
| `Explorer.IncrementalIsFull` | explorer/src/rpc.rs:383-621 | however a valid history is cut into ranges, syncing range by range gives the indexes of one full sync |
| `Explorer.IndexesUnique` | explorer/src/db.rs:733-771 | a set of unspent outputs determines both indexes |
| `Explorer.ArrivalOrderIrrelevant` | explorer/src/rpc.rs:393-395 | sorting by height gives a chain segment back from any arrival order |
| `Explorer.RangesInAnyOrder` | explorer/src/rpc.rs:383-621 | however a chain is cut into ranges and in whatever order each range's blocks arrive, syncing range by range gives the indexes of one full sync, which hold exactly the chain's unspent outputs |
| `Explorer.GetBalance` | explorer/src/db.rs:774-793 | the loop sums exactly the address's entries, and aborts exactly when that sum exceeds 256 bits |
| `Explorer.GetAllBalances` | explorer/src/db.rs:796-824 | exactly the addresses with a non-zero sum, with that sum; aborts exactly when one of the sums exceeds 256 bits |
| `Explorer.BalanceIsReplayed` | explorer/src/db.rs:774-824 | after any sequence of syncs an address's balance is what a sequential replay leaves it |
| `Selection.SelectGrowing` | astram-stratum/src/payout.rs:197-254 | the growing loops of the pool (and of wallet-cli/src/commands.rs:275-375) follow the common fee sequence |
| `Selection.SelectRestarting` | chrome-wallet/src/utils/transaction.ts:239-294 | the restarting loop follows the same fee sequence, so all three give the same inputs, fee and change |
| `Selection.Grow` | wallet-cli/src/commands.rs:275-337 | selecting on from where the last round stopped finds the shortest prefix covering the need, or that there is none |
| `Selection.BuiltIsSound` | astram-stratum/src/payout.rs:217-251 | a built payment takes the shortest prefix covering amount and fee, its inputs equal amount, change and fee, and the fee meets the default for the size of the transaction of its own round and so the validator's minimum |
| `Selection.InsufficientIsReal` | astram-stratum/src/payout.rs:208-221 | a refusal for lack of funds means that the whole pool cannot cover the amount and a fee some candidate asked for |
| `Selection.BuiltIff` | astram-stratum/src/payout.rs:217-254 | where the size depends on the number of inputs alone, every payment the pool of outputs can afford is built within the sixteen rounds if and only if the pool has at most fifteen entries |
| `Shares.PrefixIff` | astram-stratum/src/share_validator.rs:62-72 | a hash starts with d hex zeros if and only if it is below 16^(64 - d) as a number |
| `Shares.ShareResultIff` | astram-stratum/src/share_validator.rs:54-87 | a hash is rejected exactly when it is at least 16^(64 - d) or d exceeds 64, and otherwise a block exactly when it is below the network target |
| `Shares.ClassificationExactIff` | astram-stratum/src/share_validator.rs:54-87 | blocks and only blocks are reported as such if and only if the target is zero or at most 16^(64 - d) |
| `Shares.EasierPrefixIsExact` | astram-stratum/src/share_validator.rs:54-87 | a session difficulty of at most the target's leading zero digits classifies exactly |
| `Shares.InitialPoolDifficulty` | astram-stratum/src/share_validator.rs:105-134 | the loop counts the target's leading zero digits; one less, at least 1 |
| `Shares.InitialDifficultyExactIff` | astram-stratum/src/share_validator.rs:105-134 | that difficulty classifies exactly if and only if the target is at most 16^63, so for all targets within the limit |
| `Shares.BuildMinerTarget` | miner/src/main.rs:203-214 | the buffer holds one byte at the computed position |
| `Shares.MinerTargetValue` | miner/src/main.rs:203-214 | for 1 to 63 zeros that is the number 16^(64 - n) |
| `Shares.HashMeetsTarget` | core/src/consensus/cuda.rs:222-232 | the early-exit byte loop decides the numeric comparison |
| `Shares.MinerMatchesPoolIff` | miner/src/main.rs:203-214 | the miner's test accepts exactly the hashes the pool's prefix test accepts if and only if the difficulty is 1 to 63 |
| `Pplns.ShareTracker.constructor` | astram-stratum/src/shares.rs:77-90 | an empty tracker |
| `Pplns.ShareTracker.Add` | astram-stratum/src/shares.rs:108-117 | the trimming loop leaves the newest shares |
| `Pplns.ShareTracker.CountShares` | astram-stratum/src/shares.rs:145-149 | the map counts exactly the miners with shares in the window |
| `Pplns.ShareTracker.Divide` | astram-stratum/src/shares.rs:167-177 | every miner with shares is credited its floored part once, in some order of the hash map |
| `Pplns.ShareTracker.DistributePplns` | astram-stratum/src/shares.rs:129-190 | a known hash changes nothing; a new one is recorded and its credits added to the balances |
| `Pplns.WindowIsNewest` | astram-stratum/src/shares.rs:108-117 | after every run the window is the last W accepted shares, or all while there are fewer |
| `Pplns.CreditsTotal` | astram-stratum/src/shares.rs:151-177 | one block's credits total at most the distributable amount, and the remainder is less than the number of distinct miners |
| `Pplns.RewardIsAccounted` | astram-stratum/src/shares.rs:151-177 | credits and fee come to the reward but for less than one unit for each miner in the window, and exactly when it is empty; a fee above the reward leaves nothing to credit |
| `Pplns.EachIsCredited` | astram-stratum/src/shares.rs:151-177 | each miner gets the floored part of reward less fee that its shares are of the window; with an empty window the finder gets all |
| `Pplns.OrderIrrelevant` | astram-stratum/src/shares.rs:167-177 | the hash map's order does not matter to the balances |
| `Pplns.OwedAfter` | astram-stratum/src/shares.rs:172-173 | saturating credit by credit is saturating once |
| `Pplns.FoundAreFirst` | astram-stratum/src/shares.rs:139-141 | the record of found blocks is the first report of every hash, in order |
| `Pplns.CreditsWithinRewards` | astram-stratum/src/shares.rs:129-190 | over every run all credits together are at most the rewards of the distinct blocks found |
| `Pplns.BalanceIsCredits` | astram-stratum/src/shares.rs:162-177 | every balance is the sum of the address's credits, up to the largest 256-bit number |
| `Pplns.GroupWithinRewards` | astram-stratum/src/shares.rs:129-190 | no group of miners is ever owed more than the rewards of the distinct blocks found |
| `Orphans.OrphanPool.Store` | node/src/p2p/service.rs:468-516 | too high a block is ignored; otherwise far orphans go, a full pool loses its 25 highest, expired ones go, the block is added; the pool stays within 100 |
| `Orphans.OrphanPool.RemoveHighest` | node/src/p2p/service.rs:495-508 | exactly n leave, and nothing that stays is higher than anything that left |
| `Orphans.RunWithinLimit` | node/src/p2p/service.rs:478-516 | over every run the pool never holds more than 100, each under its own hash |
| `Orphans.StoredSurvivors` | node/src/p2p/service.rs:468-516 | of the other orphans only those at most 1000 above the chain and younger than 1800 seconds survive a store, all of them if fewer than 100 are that near, and at least 25 go first otherwise |
| `Orphans.OrphanPool.Retry` | node/src/p2p/service.rs:772-813 | an orphan leaves exactly when its parent is stored and insertion accepts it; otherwise nothing changes |
| `Orphans.OrphanPool.Pass` | node/src/p2p/service.rs:760-815 | one pass over a snapshot takes an orphan out, or finds every one stuck in the unchanged state |
| `Orphans.OrphanPool.ProcessOrphanBlocks` | node/src/p2p/service.rs:757-833 | a fixpoint despite the 100-pass cap: every remaining orphan lacks a stored parent or is rejected in the final state; orphans leave only by acceptance or age, and the final state is what those acceptances made |
| `Orphans.InsertedNeedsNoReorganization` | node/src/p2p/service.rs:802-803 | after a real insertion the reorganization check finds nothing to do |
| `Mempool.MempoolState.HasConflict` | node/src/p2p/service.rs:643-660 | the nested loops decide whether a pending transaction spends one of these outputs |
| `Mempool.MempoolState.Admit` | node/src/p2p/service.rs:638-669 | an unseen transaction without conflict is recorded and appended; otherwise nothing changes |
| `Mempool.MempoolState.Confirm` | node/src/p2p/service.rs:335-345 | the loop takes exactly the positions of unconfirmed transactions, in increasing order: the confirmed leave, nothing else does, the rest keep their order and the seen txids are untouched |
| `Mempool.MempoolState.Retain` | node/src/lib.rs:135-137 | `retain` on the pending list: exactly the positions whose transaction is to be kept are taken, in increasing order |
| `Mempool.MempoolState.ForgetOld` | node/src/p2p/service.rs:565-582 | the loop, in whatever order the table has, forgets a txid if and only if it was seen an hour ago or earlier, and changes no time of the others |
| `Mempool.MempoolState.EnforceMempoolLimit` | node/src/lib.rs:128-238 | expiry, early exit, the aborting fee estimate, the sort and the drop, as one function of the pool |
| `Mempool.MempoolState.CountToDrop` | node/src/lib.rs:182-209 | the two loops find the least number to drop |
| `Mempool.SortIsStable` | node/src/lib.rs:153-180 | transactions of equal fee rate keep their order |
| `Mempool.EvictionIsShortest` | node/src/lib.rs:153-236 | eviction drops exactly the shortest prefix of the fee-rate order that makes the rest meet both limits, and forgets exactly those txids |
| `Mempool.LimitsMetIff` | node/src/lib.rs:145-151 | the count limit is always met, the byte limit if and only if there were too many transactions or few enough bytes |
| `Mempool.EvictionInNumbers` | node/src/lib.rs:128-238 | up to 10000 transactions younger than a day all stay; of more, what stays is within 10000 and 300,000,000 bytes, pays no less per byte than anything dropped, and one fewer dropped would not do |
| `Mempool.ConfirmedMembers` | node/src/p2p/service.rs:335-345 | exactly the transactions with confirmed txids leave |
| `Mempool.AdmittedIff` | node/src/p2p/service.rs:638-669 | a transaction is admitted if and only if its txid is not remembered and no pending one spends an output it spends |
| `Mempool.SeenAfter` | node/src/lib.rs:223-232 | exactly the dropped txids can be seen again |
| `Poisoning.EnforceAbortsIff` | node/src/lib.rs:145-180 | enforcement aborts if and only if more than 10000 unexpired transactions are pending and one has outputs beyond 256 bits or estimated inputs 2^64 or more above its outputs |
| `Poisoning.InputsDecideIff` | node/src/lib.rs:160-176 | n inputs guarantee an estimate for every output total within 256 bits if and only if n is at most 18 |
| `Poisoning.StepPoisonsIff` | node/src/p2p/service.rs:632-669 | a lock section poisons the mutex if and only if it admits a P2P transaction and the enforcement that follows aborts |
| `Poisoning.PoisonFreezes` | node/src/p2p/service.rs:632-669 | once poisoned, the pool is the same in every later state of the run |
| `Poisoning.LightRunsNeverAbort` | node/src/p2p/service.rs:599-689 | no run aborts while every submitted transaction has an estimate |
| `Poisoning.PoisonedRun` | node/src/lib.rs:153-180 | a run of 10000 ordinary transactions and one with 19 inputs that ends poisoned |
| `Poisoning.OversizedRun` | node/src/lib.rs:145-151 | a run that ends with 10000 pending transactions of 300,010,000 bytes, all of which enforcement keeps |
| `Mempool.StepKeeps` | node/src/p2p/service.rs:599-689 | each lock section of each handler keeps pending transactions free of conflicts and properly signed |
| `Mempool.RunKeepsDisjoint` | node/src/p2p/service.rs:599-689 | in every interleaving of handlers (two lock sections each), HTTP submissions, confirmations, clean-ups and evictions, no two pending transactions share an input |
| `Mempool.SeenIsIgnored` | node/src/p2p/service.rs:599-620 | a handler whose txid is remembered at its first lock section is over in every continuation and never adds it |

## Left out

- RecoverTip: says that the tip moves to some block of greatest height, not which one among equals, since that depends on the database's key order.
- ReorganizeIfNeeded: requires that stored parents are one below their children; otherwise the walks need not end and the height differences need not be path lengths.
- FindCommonAncestor: the same.
- CollectHashes: the same.
- CollectAbove: the same.
- MakePlan: the same.
- MoveTip: the same.
- RunKeepsMedianTime: requires that fork blocks are stored on a parent whose own path is whole, because the walk stops at a gap and then takes the median of fewer timestamps; and a collision-free header hash.
- StateIsFoldOfPath: under the hypotheses listed above, which the code does not establish.
- IncrementalIsFull: for histories in which every outpoint is created once and every output has an address, with addresses taken verbatim; an address containing a colon would break the text keys and is not modelled.
- ExtractTransactions: yields the map and the two lists, not the summary records with sender, amount and estimated fee.
- GetAllBalances: yields a map; the source's list is sorted by balance.
- SelectGrowing: sums without the 256-bit limit, where the pool and the CLI wallet abort; the Chrome wallet's numbers are unbounded.
- DistributePplns: the pool fee is an arbitrary number, because the source computes it in floating point; rewards are below 2^128, as the source demands.
- Retry: does not model the removal of the block's transactions from the mempool (that is Confirm) and the in-memory block list.
- Signed 64-bit overflow of timestamps and the 32-bit cast of output numbers are not modelled.
- RocksDB, write failures between batches, and every encoding: maps, atomic batches and an abstract size.
- Cryptography: arbitrary functions, injective only where a statement says so; text keys are structured values.
- `create_genesis`, `reset_chain` and `count_blocks` as operations: set-up and repair.
- The `/tx/relay` route, which appends without a conflict check and so is not a step of the mempool invariant.
- Payout settlement after a found block, lifetime share counters, worker bookkeeping and difficulty averages.
- GPU code, networking, peers, bans, HTTP servers, the DNS service and the user interfaces.
- Explorer counters, pagination and the rich list: easy next to the indexes.
