# VM runner storage cache and the L1 gas seal criterion

This project models two pieces of the zkSync Era node in Dafny and proves properties of them.

**The VM runner's storage layer** (`core/lib/zksync_core/src/vm_runner/storage.rs`). A VM
runner re-executes sealed L1 batches. It reads state from one of two places:

- Postgres, until the local RocksDB snapshot has caught up;
- afterwards, the RocksDB snapshot with the in-memory diffs of the batches above it stacked
  on top.

The shared record `State` holds three things:

- an optional RocksDB handle;
- the floor `l1BatchNumber`, i.e. the batch the snapshot represents;
- an ordered map `storage` from batch number to that batch's execute data and diff.

In module `VmRunnerStorage`:

- the datatype `State` is the value a reader sees while it holds the read lock;
- the functions `AccessStorage` and `LoadBatch` are the two readers;
- the class `SharedState` is the lock-guarded cell.

Its method `RunIteration` performs one iteration of the loop in `StorageSyncTask::run`, in
the source's order:

1. the stop check;
2. the no-op check;
3. the commit under the write lock: new snapshot, new floor, `retain` of the keys above it;
4. the preload `for` loop, which `break`s at the first batch without execute data.

`RunIteration` is proved equal to the specification function `Next`; the lemmas are stated
about `Next`.

**The L1 gas seal criterion** (`core/node/state_keeper/src/seal_criteria/criteria/l1_l2_txs.rs`),
in module `L1L2TxsCriterion`. A block is sealed once
`L1_BATCH_EXECUTE_BASE_COST + l1_tx_count * L1_OPERATION_EXECUTE_COST` reaches the gas bound.
The two cost constants are declared with their `u32` range only (the operation cost is
positive), so every lemma holds whatever their values are.

External answers become values:

- What Postgres returns during one iteration is the datatype `Dal`: the loader's two
  watermarks, plus total functions for the point queries (first L2 block of a batch, batch
  parameters, L2 blocks, the three diff parts).
- What the RocksDB builder reports and what its synchronisation returns are fields of
  `SyncInputs`. `None` means synchronisation was interrupted.
- The stop signal is a boolean in `SyncInputs`.

## Model

| member | source | states |
|---|---|---|
| `VmRunnerStorage.LoadBatchExecuteData` | core/lib/zksync_core/src/vm_runner/storage.rs:376-414 | the execute data is absent exactly when the batch has no first L2 block; otherwise its parameters are those loaded for that block and its L2 blocks are the batch's L2 blocks |
| `VmRunnerStorage.LoadBatchDiff` | core/lib/zksync_core/src/vm_runner/storage.rs:346-364 | the diff of a batch is assembled from the touched-slots, initial-writes and factory-deps answers for that batch; `NewlyCachedBatchIsServed` states that this is the diff a reader's view of a newly cached batch ends with |
| `VmRunnerStorage.State.CanBeUsedForL1Batch` | core/lib/zksync_core/src/vm_runner/storage.rs:100-103 | a batch is servable exactly when it is the floor or cached; `AvailabilityDecidesReaders` states that this test decides both readers once a snapshot exists |
| `VmRunnerStorage.AccessStorage` | core/lib/zksync_core/src/vm_runner/storage.rs:139-178 | without a snapshot the answer is always a Postgres view of the requested batch; with one it is `None` exactly when the batch is neither the floor nor cached, and otherwise the snapshot with `BatchDiffs` of the cache |
| `VmRunnerStorage.KeysInRange` | core/lib/zksync_core/src/vm_runner/storage.rs:161-171 | the `BTreeMap` iteration over the cached batches up to `n`: it holds exactly the cached batches in range, in strictly ascending order |
| `VmRunnerStorage.KeysInRangeCount` | core/lib/zksync_core/src/vm_runner/storage.rs:161-171 | the iteration yields as many batches as there are cached batches in range |
| `VmRunnerStorage.BatchDiffs` | core/lib/zksync_core/src/vm_runner/storage.rs:161-171 | the stacked diff list has one entry per cached batch `<= n` |
| `VmRunnerStorage.BatchDiffsFollowKeyOrder` | core/lib/zksync_core/src/vm_runner/storage.rs:161-171 | for any strictly ascending enumeration of the cached batches `<= n`, entry `i` of the stacked list is the diff of the `i`-th batch of that enumeration |
| `VmRunnerStorage.StrictlyIncreasingUnique` | core/lib/zksync_core/src/vm_runner/storage.rs:161-171 | two strictly ascending sequences of the same batch numbers are equal, so the ascending order of the diffs is unique |
| `VmRunnerStorage.LoadBatch` | core/lib/zksync_core/src/vm_runner/storage.rs:190-217 | without a snapshot, the direct Postgres answer verbatim; with one, the cached execute data if the batch is cached and `None` otherwise |
| `VmRunnerStorage.AvailabilityDecidesReaders` | core/lib/zksync_core/src/vm_runner/storage.rs:144-216 | with a snapshot, a view is served exactly for the batches `can_be_used_for_l1_batch` accepts; while every cached batch is above the floor, execute data are served exactly for those batches other than the floor |
| `VmRunnerStorage.ViewEndsWithOwnDiff` | core/lib/zksync_core/src/vm_runner/storage.rs:161-177 | the view of a cached batch is served and its last stacked diff is that batch's own diff |
| `VmRunnerStorage.Commit` | core/lib/zksync_core/src/vm_runner/storage.rs:321-326 | after the commit the snapshot is the synchronised one and the floor is the latest processed batch; the batches above it keep their entries and all others are evicted |
| `VmRunnerStorage.LastKey` | core/lib/zksync_core/src/vm_runner/storage.rs:327-331 | `last_entry`: absent exactly for an empty cache, otherwise a cached batch no smaller than any other |
| `VmRunnerStorage.MaxPresent` | core/lib/zksync_core/src/vm_runner/storage.rs:327-331 | the start of the preload range: no smaller than any cached batch, a cached batch when the cache is non-empty, the floor otherwise |
| `VmRunnerStorage.PreloadEnd` | core/lib/zksync_core/src/vm_runner/storage.rs:334-345 | where the `for` loop stops: every batch before it has execute data, and if it is within range its own execute data is absent (the `break`) |
| `VmRunnerStorage.Preload` | core/lib/zksync_core/src/vm_runner/storage.rs:327-371 | the preload keeps every cached entry unchanged and adds exactly the batches from `max_present + 1` up to the first gap, each with its loaded execute data and diff |
| `VmRunnerStorage.IsCaughtUp` | core/lib/zksync_core/src/vm_runner/storage.rs:294-307 | the no-op test: the snapshot expects `latest_processed_batch + 1` and the last ready batch is cached; `Next` sends it to `Idle` and `CaughtUpSkipChangesNothing` states it is safe to skip |
| `VmRunnerStorage.Next` | core/lib/zksync_core/src/vm_runner/storage.rs:286-371 | one loop iteration: `Stopped` exactly on the stop signal, `Idle` exactly when not stopped and the no-op test holds, `Interrupted` exactly when neither and synchronisation gave no snapshot, `Advanced` otherwise; every outcome but `Advanced` leaves the record as it was |
| `VmRunnerStorage.CaughtUpSkipChangesNothing` | core/lib/zksync_core/src/vm_runner/storage.rs:294-307 | when the no-op test holds, the floor is the latest processed batch and synchronisation would return the same snapshot, a commit followed by a preload would leave the record unchanged, so skipping them loses nothing |
| `VmRunnerStorage.NewlyCachedBatchIsServed` | core/lib/zksync_core/src/vm_runner/storage.rs:327-371 | a batch an advancing iteration newly caches is then served with the execute data loaded for it, and its view ends with the diff loaded for it |
| `VmRunnerStorage.PreloadInsertsOnlyUpToFirstGap` | core/lib/zksync_core/src/vm_runner/storage.rs:327-371 | a batch the preload inserts lies in `max_present + 1 ..= max_desired`, and every batch from `max_present + 1` up to it has execute data, so nothing past a gap is inserted |
| `VmRunnerStorage.IterationOutcomes` | core/lib/zksync_core/src/vm_runner/storage.rs:286-326 | stop gives `Stopped`; a caught-up snapshot with the last ready batch cached gives `Idle`; otherwise an interrupted synchronisation gives `Interrupted`; these three leave the record untouched, and an advancing iteration sets the snapshot and the floor and keeps every key above the floor |
| `VmRunnerStorage.IterationKeepsKeysAboveFloor` | core/lib/zksync_core/src/vm_runner/storage.rs:321-371 | every cached batch stays above the floor across an iteration |
| `VmRunnerStorage.IterationKeepsCachedBatches` | core/lib/zksync_core/src/vm_runner/storage.rs:321-371 | an iteration never overwrites or drops a cached batch above the new floor |
| `VmRunnerStorage.CommitKeepsContiguity` | core/lib/zksync_core/src/vm_runner/storage.rs:321-326 | eviction keeps the cached batches a gap-free range starting just above the floor, provided the cache is empty or the new floor is not below the old one |
| `VmRunnerStorage.PreloadKeepsContiguity` | core/lib/zksync_core/src/vm_runner/storage.rs:327-371 | preloading keeps the cached batches a gap-free range starting just above the floor |
| `VmRunnerStorage.IterationKeepsContiguity` | core/lib/zksync_core/src/vm_runner/storage.rs:321-371 | gap-free cached batches starting at floor + 1, or an empty cache, stay so after a whole iteration, provided the floor does not move back below cached batches |
| `VmRunnerStorage.AvailabilityRange` | core/lib/zksync_core/src/vm_runner/storage.rs:139-217 | with a snapshot and a gap-free cache, views are served exactly for the floor up to the greatest cached batch, and execute data exactly for the batches above the floor up to it |
| `VmRunnerStorage.ScenarioFirstIteration` | core/lib/zksync_core/src/vm_runner/storage.rs:286-371 | floor 10, nothing cached, batches 11 and 12 ready: one iteration caches exactly 11 and 12 |
| `VmRunnerStorage.ScenarioSecondIteration` | core/lib/zksync_core/src/vm_runner/storage.rs:286-371 | after batch 11 is processed, the next iteration moves the floor to 11, evicts 11, keeps 12 and loads nothing more |
| `VmRunnerStorage.TwoIterationScenario` | core/lib/zksync_core/src/vm_runner/storage.rs:286-371 | across both iterations, batch 11 and then batch 12 are available, batch 13 is not, and batch 10 stops being available once the floor reaches 11 |
| `VmRunnerStorage.SharedState.constructor` | core/lib/zksync_core/src/vm_runner/storage.rs:119-123 | the record starts without a snapshot, at floor 0, with nothing cached |
| `VmRunnerStorage.SharedState.RunIteration` | core/lib/zksync_core/src/vm_runner/storage.rs:286-373 | the new record and the outcome are exactly those of `Next` on the old record |
| `VmRunnerStorage.SharedState.CommitSynchronized` | core/lib/zksync_core/src/vm_runner/storage.rs:321-326 | the record after the write-locked commit is `Commit` of the old one |
| `VmRunnerStorage.SharedState.PreloadBatches` | core/lib/zksync_core/src/vm_runner/storage.rs:327-371 | the record after the preload is `Preload` of the old one |
| `VmRunnerStorage.SharedState.InsertUntilGap` | core/lib/zksync_core/src/vm_runner/storage.rs:334-371 | the loop adds exactly the loaded entries from the first batch of the range up to `PreloadEnd` to the map |
| `L1L2TxsCriterion.ShouldSeal` | core/node/state_keeper/src/seal_criteria/criteria/l1_l2_txs.rs:12-31 | `IncludeAndSeal` exactly when the L1 gas `BASE + l1_tx_count * COST` reaches the bound, `NoSeal` exactly when it is below it |
| `L1L2TxsCriterion.DecisionIgnoresOtherInputs` | core/node/state_keeper/src/seal_criteria/criteria/l1_l2_txs.rs:12-20 | the decision does not depend on the timestamp, the transaction count, the seal data or the protocol version |
| `L1L2TxsCriterion.SealIsMonotonic` | core/node/state_keeper/src/seal_criteria/criteria/l1_l2_txs.rs:24-30 | if some number of L1 transactions seals the block, any larger number does too |
| `L1L2TxsCriterion.ZeroL1TxsDoNotSeal` | core/node/state_keeper/src/seal_criteria/criteria/l1_l2_txs.rs:60-70 | an empty block is not sealed when the base cost is below the bound |
| `L1L2TxsCriterion.TxCountBoundary` | core/node/state_keeper/src/seal_criteria/criteria/l1_l2_txs.rs:47-94 | with `k = (bound - BASE - 1) / COST`, `k` L1 transactions give `NoSeal` and `k + 1` give `IncludeAndSeal` |
| `L1L2TxsCriterion.GasBoundary` | core/node/state_keeper/src/seal_criteria/criteria/l1_l2_txs.rs:47-49 | the L1 gas of `k` transactions is below the bound and that of `k + 1` reaches it |

Readers are functions of a `State` value, so neither can change the record.

## Left out

- Postgres and RocksDB access are not modelled. `Connection`, `ConnectionPool`, the DAL
  queries, `RocksdbStorageBuilder::synchronize` and `l1_batch_number` appear only as the
  answers they give, in `Dal` and `SyncInputs`. Their data-access errors are not modelled:
  in the source they abort the operation or the task.
- The read semantics of `RocksdbWithMemory` / `PgOrRocksdbStorage` are not modelled. They
  belong to `zksync_state`, which is not part of this model. A view is just the snapshot
  handle plus its list of diffs.
- `BatchExecuteData`, `BatchDiff` and their parts are opaque values.
- The async runtime, the `RwLock`, the `watch` stop channel and the 50 ms sleep are left
  out. One iteration is treated as one atomic step. Stopping, idling and an interrupted
  synchronisation are outcomes that leave the record untouched.
- The catch-up task, the `OnceCell` hand-off and `StorageSyncTask::new` are left out: they
  are one-shot setup before the loop.
- `VmRunnerStorageLoader::name` only tags the Postgres connections (`storage.rs:196`,
  `storage.rs:291`). It is left out with the rest of the Postgres access.
  `VmRunnerStorageLoader::mark_l1_batch_as_completed` is never called in this file.
- The `tracing::debug!` and `tracing::info!` diagnostics (`storage.rs:153-158`, `207-212`,
  `288`, `318`) are not modelled. Nothing in the modelled behaviour depends on them.
- The rule that callers must not keep views below the floor is a documented caller
  obligation that the code does not check.
- Next: both `last_ready_to_be_loaded_batch` queries of one iteration get the same answer,
  `Dal.lastReadyToBeLoadedBatch`. In the source they are two separate queries.
- CommitKeepsContiguity: this lemma needs the same proviso as `IterationKeepsContiguity`:
  the cache is empty or the new floor is not below the old one.
- IterationKeepsContiguity: this lemma assumes `latest_processed_batch` is not below the
  floor while batches are cached. If the floor moved back, the retained keys would start
  above the new floor + 1.
- Batch numbers are unbounded naturals. The `u32` additions `latest_processed_batch + 1` and
  `max_present + 1` are taken never to overflow.
- ShouldSeal: the gas bound is an integer input. The `f64` product and rounding that
  compute it from the configuration are floating point and are left out.
- ShouldSeal: it requires `BASE + l1_tx_count * COST` to fit in a `u32`. Beyond that the
  source's `u32` arithmetic would overflow, and the `as u32` cast of the count would
  truncate.
- `SealResolution` has only the two variants this criterion returns. The enum's full
  definition is not part of this model.
- `prover/…/circuit.rs`, `zk_toolbox/…/accept_ownership.rs`, `zkstack_cli/…/forge.rs`,
  `zk_toolbox/…/deploy_l2_contracts/output.rs` and the two VM test modules are not modelled.
  They cover GPU proving through foreign libraries, CLI scripting, serde configuration
  structs and VM integration tests.
