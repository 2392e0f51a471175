/**
 * The VM runner's storage layer: a RocksDB snapshot that covers every L1 batch up to a
 * floor, plus an ordered in-memory cache of the data of the batches just above it.
 *
 * `State` is the value of the lock-guarded record; `AccessStorage` and `LoadBatch` are the
 * two readers, which look at one such value. `SharedState` is the cell itself, and its
 * method `RunIteration` performs one iteration of the background synchronisation loop,
 * proved against the specification function `Next`.
 */
module VmRunnerStorage {
  import opened Wrappers

  /** Handle to the RocksDB snapshot. How it answers reads is not part of this model. */
  type RocksdbStorage(==)
  /** Parameters of an L1 batch and of its execution, as loaded from Postgres. */
  type L1BatchEnv(==)
  type SystemEnv(==)
  /** One sealed L2 block with its transactions. */
  type L2BlockExecutionData(==)
  /** What `load_first_l2_block_in_batch` returns when the batch has an L2 block. */
  type FirstL2BlockInBatch(==)
  /** The three parts of a batch's storage diff. */
  type StateDiff(==)
  type EnumIndexDiff(==)
  type FactoryDepDiff(==)

  /** L1 batch numbers. The source's `u32` never wraps in practice and is left unbounded here. */
  type L1BatchNumber = nat

  datatype BatchExecuteData = BatchExecuteData(
    l1BatchEnv: L1BatchEnv,
    systemEnv: SystemEnv,
    l2Blocks: seq<L2BlockExecutionData>)

  datatype BatchDiff = BatchDiff(
    stateDiff: StateDiff,
    enumIndexDiff: EnumIndexDiff,
    factoryDepDiff: FactoryDepDiff)

  datatype BatchData = BatchData(executeData: BatchExecuteData, diff: BatchDiff)

  /**
   * The answers of Postgres during one step: the loader's two watermarks and the point
   * queries needed to assemble the data of a batch.
   */
  datatype Dal = Dal(
    latestProcessedBatch: L1BatchNumber,
    lastReadyToBeLoadedBatch: L1BatchNumber,
    firstL2BlockInBatch: L1BatchNumber -> Option<FirstL2BlockInBatch>,
    l1BatchParams: FirstL2BlockInBatch -> (SystemEnv, L1BatchEnv),
    l2BlocksToExecute: L1BatchNumber -> seq<L2BlockExecutionData>,
    touchedSlots: L1BatchNumber -> StateDiff,
    initialWrites: L1BatchNumber -> EnumIndexDiff,
    factoryDeps: L1BatchNumber -> FactoryDepDiff)

  /**
   * The shared record: the snapshot handle (absent until the first synchronisation), the
   * batch the snapshot represents (the floor) and the preloaded batches.
   */
  datatype State = State(
    rocksdb: Option<RocksdbStorage>,
    l1BatchNumber: L1BatchNumber,
    storage: map<L1BatchNumber, BatchData>)
  {
    /** Whether the snapshot plus the cached diffs can serve reads for batch `n`. */
    predicate CanBeUsedForL1Batch(n: L1BatchNumber) {
      n == l1BatchNumber || n in storage
    }
  }

  /** A read view: either straight from Postgres, or the snapshot with diffs stacked on it. */
  datatype PgOrRocksdbStorage =
    | Postgres(l1BatchNumber: L1BatchNumber)
    | RocksdbWithMemory(rocksdb: RocksdbStorage, batchDiffs: seq<BatchDiff>)

  // ----- Postgres queries -----

  /** The execution input of batch `n`; absent exactly when the batch has no L2 block yet. */
  function LoadBatchExecuteData(dal: Dal, n: L1BatchNumber): (r: Option<BatchExecuteData>)
    ensures r.None? <==> dal.firstL2BlockInBatch(n).None?
    ensures r.Some? ==>
      && (r.value.systemEnv, r.value.l1BatchEnv) == dal.l1BatchParams(dal.firstL2BlockInBatch(n).value)
      && r.value.l2Blocks == dal.l2BlocksToExecute(n)
  {
    match dal.firstL2BlockInBatch(n)
    case None => None
    case Some(first) =>
      var params := dal.l1BatchParams(first);
      Some(BatchExecuteData(params.1, params.0, dal.l2BlocksToExecute(n)))
  }

  /** The diff of batch `n`, assembled from three independent queries. */
  function LoadBatchDiff(dal: Dal, n: L1BatchNumber): BatchDiff {
    BatchDiff(dal.touchedSlots(n), dal.initialWrites(n), dal.factoryDeps(n))
  }

  /** The cache entry preloaded for batch `n`. */
  function LoadedBatch(dal: Dal, n: L1BatchNumber): BatchData
    requires LoadBatchExecuteData(dal, n).Some?
  {
    BatchData(LoadBatchExecuteData(dal, n).value, LoadBatchDiff(dal, n))
  }

  // ----- ordered iteration over the cache -----

  predicate StrictlyIncreasing(s: seq<L1BatchNumber>) {
    forall i, j :: 0 <= i < j < |s| ==> s[i] < s[j]
  }

  /** The keys of `keys` within `lo..=hi`, in ascending order (the order a `BTreeMap` iterates in). */
  function KeysInRange(keys: set<L1BatchNumber>, lo: L1BatchNumber, hi: L1BatchNumber): (ks: seq<L1BatchNumber>)
    ensures forall k :: k in ks <==> k in keys && lo <= k <= hi
    ensures StrictlyIncreasing(ks)
    decreases if lo <= hi then hi + 1 - lo else 0
  {
    if lo > hi then []
    else
      var rest := KeysInRange(keys, lo + 1, hi);
      assert forall j :: 0 <= j < |rest| ==> lo < rest[j] by {
        forall j | 0 <= j < |rest| ensures lo < rest[j] { assert rest[j] in rest; }
      }
      (if lo in keys then [lo] else []) + rest
  }

  /** The cached batches within `lo..=hi`, as a set. */
  function KeysBetween(keys: set<L1BatchNumber>, lo: L1BatchNumber, hi: L1BatchNumber): set<L1BatchNumber> {
    set k | k in keys && lo <= k <= hi
  }

  lemma KeysBetweenSplit(keys: set<L1BatchNumber>, lo: L1BatchNumber, hi: L1BatchNumber)
    requires lo <= hi
    ensures KeysBetween(keys, lo, hi) == KeysBetween(keys, lo + 1, hi) + (if lo in keys then {lo} else {})
    ensures lo !in KeysBetween(keys, lo + 1, hi)
  {
    var here, above := KeysBetween(keys, lo, hi), KeysBetween(keys, lo + 1, hi);
    forall k ensures k in here <==> k in above + (if lo in keys then {lo} else {}) {
      if k == lo && lo in keys { assert k in here; }
    }
  }

  lemma {:induction false} KeysInRangeCount(keys: set<L1BatchNumber>, lo: L1BatchNumber, hi: L1BatchNumber)
    ensures |KeysInRange(keys, lo, hi)| == |KeysBetween(keys, lo, hi)|
    decreases if lo <= hi then hi + 1 - lo else 0
  {
    if lo > hi {
      assert KeysBetween(keys, lo, hi) == {};
    } else {
      KeysInRangeCount(keys, lo + 1, hi);
      KeysBetweenSplit(keys, lo, hi);
      assert |KeysInRange(keys, lo, hi)| == (if lo in keys then 1 else 0) + |KeysInRange(keys, lo + 1, hi)|;
    }
  }

  lemma FirstIsMember(s: seq<L1BatchNumber>)
    ensures |s| > 0 ==> s[0] in s
  {
  }

  /** Two ascending enumerations of the same keys are the same sequence. */
  lemma {:induction false} StrictlyIncreasingUnique(a: seq<L1BatchNumber>, b: seq<L1BatchNumber>)
    requires StrictlyIncreasing(a) && StrictlyIncreasing(b)
    requires forall x :: x in a <==> x in b
    ensures a == b
    decreases |a|
  {
    if |a| == 0 {
      FirstIsMember(b);
    } else {
      assert a[0] in b;
      var i :| 0 <= i < |b| && b[i] == a[0];
      assert b[0] in a;
      var j :| 0 <= j < |a| && a[j] == b[0];
      assert a[0] <= a[j] && b[0] <= b[i];
      forall x ensures x in a[1..] <==> x in b[1..] {
        if x in a[1..] {
          var p :| 1 <= p < |a| && a[p] == x;
          assert x in b && x != b[0];
          var q :| 0 <= q < |b| && b[q] == x;
          assert b[1..][q - 1] == x;
        }
        if x in b[1..] {
          var q :| 1 <= q < |b| && b[q] == x;
          assert x in a && x != a[0];
          var p :| 0 <= p < |a| && a[p] == x;
          assert a[1..][p - 1] == x;
        }
      }
      StrictlyIncreasingUnique(a[1..], b[1..]);
      assert a == [a[0]] + a[1..];
      assert b == [b[0]] + b[1..];
    }
  }

  /** The diffs of the cached batches up to `n`, in ascending batch order. */
  function BatchDiffs(storage: map<L1BatchNumber, BatchData>, n: L1BatchNumber): (diffs: seq<BatchDiff>)
    ensures |diffs| == |set k | k in storage && k <= n|
  {
    var ks := KeysInRange(storage.Keys, 0, n);
    KeysInRangeCount(storage.Keys, 0, n);
    assert KeysBetween(storage.Keys, 0, n) == (set k | k in storage && k <= n);
    seq(|ks|, i requires 0 <= i < |ks| => storage[ks[i]].diff)
  }

  /**
   * Whatever ascending enumeration `ks` of the cached batches up to `n` is taken, the stacked
   * diffs are the diffs of `ks`, in that order.
   */
  lemma BatchDiffsFollowKeyOrder(storage: map<L1BatchNumber, BatchData>, n: L1BatchNumber, ks: seq<L1BatchNumber>)
    requires StrictlyIncreasing(ks)
    requires forall k :: k in ks <==> k in storage && k <= n
    ensures |BatchDiffs(storage, n)| == |ks|
    ensures forall i :: 0 <= i < |ks| ==> BatchDiffs(storage, n)[i] == storage[ks[i]].diff
  {
    StrictlyIncreasingUnique(ks, KeysInRange(storage.Keys, 0, n));
  }

  // ----- readers -----

  /** `access_storage_inner`: the view a reader gets for batch `n`, or `None` when it is not available. */
  function AccessStorage(s: State, n: L1BatchNumber): (r: Option<PgOrRocksdbStorage>)
    ensures s.rocksdb.None? ==> r == Some(Postgres(n))
    ensures s.rocksdb.Some? ==> (r.None? <==> n != s.l1BatchNumber && n !in s.storage)
    ensures s.rocksdb.Some? && r.Some? ==>
      r.value == RocksdbWithMemory(s.rocksdb.value, BatchDiffs(s.storage, n))
  {
    match s.rocksdb
    case None => Some(Postgres(n))
    case Some(rocksdb) =>
      if !s.CanBeUsedForL1Batch(n) then None
      else Some(RocksdbWithMemory(rocksdb, BatchDiffs(s.storage, n)))
  }

  /** `load_batch`: the execution input of batch `n`. */
  function LoadBatch(s: State, dal: Dal, n: L1BatchNumber): (r: Option<BatchExecuteData>)
    ensures s.rocksdb.None? ==> r == LoadBatchExecuteData(dal, n)
    ensures s.rocksdb.Some? ==> (r.Some? <==> n in s.storage)
    ensures s.rocksdb.Some? && n in s.storage ==> r == Some(s.storage[n].executeData)
  {
    if s.rocksdb.None? then LoadBatchExecuteData(dal, n)
    else if n in s.storage then Some(s.storage[n].executeData)
    else None
  }

  // ----- the synchronisation step -----

  lemma {:induction false} MaxExists(keys: set<L1BatchNumber>)
    requires keys != {}
    ensures exists last :: last in keys && forall k :: k in keys ==> k <= last
  {
    var x :| x in keys;
    if keys == {x} {
      assert forall k :: k in keys ==> k <= x;
    } else {
      var rest := keys - {x};
      MaxExists(rest);
      var m :| m in rest && forall k :: k in rest ==> k <= m;
      var last := if x <= m then m else x;
      forall k | k in keys ensures k <= last {
        if k != x { assert k in rest; }
      }
    }
  }

  /** The greatest cached batch number (`BTreeMap::last_entry`). */
  function LastKey(storage: map<L1BatchNumber, BatchData>): (r: Option<L1BatchNumber>)
    ensures r.None? <==> storage == map[]
    ensures r.Some? ==> r.value in storage && forall k :: k in storage ==> k <= r.value
  {
    if storage == map[] then None
    else
      assert storage.Keys != {};
      MaxExists(storage.Keys);
      var last :| last in storage && forall k :: k in storage ==> k <= last;
      Some(last)
  }

  /** The greatest cached batch number, or the floor when nothing is cached. */
  function MaxPresent(s: State): (m: L1BatchNumber)
    ensures forall k :: k in s.storage ==> k <= m
    ensures s.storage == map[] ==> m == s.l1BatchNumber
    ensures s.storage != map[] ==> m in s.storage
  {
    match LastKey(s.storage)
    case None => s.l1BatchNumber
    case Some(last) => last
  }

  /** I1: every cached batch lies above the floor. */
  predicate KeysAboveFloor(s: State) {
    forall k :: k in s.storage ==> s.l1BatchNumber < k
  }

  /** I2: the cached batches are exactly `l1BatchNumber + 1 ..= MaxPresent(s)`. */
  predicate Contiguous(s: State) {
    && KeysAboveFloor(s)
    && forall k :: s.l1BatchNumber < k <= MaxPresent(s) ==> k in s.storage
  }

  /** Everything one loop iteration reads from outside the shared record. */
  datatype SyncInputs = SyncInputs(
    /** The stop signal, as seen at the top of the loop. */
    stopRequested: bool,
    dal: Dal,
    /** The next batch the RocksDB snapshot expects, as its builder reports it. */
    rocksdbNextBatch: Option<L1BatchNumber>,
    /** The snapshot synchronised up to `latestProcessedBatch`, or `None` if that was interrupted. */
    synchronized: Option<RocksdbStorage>)

  datatype IterationOutcome =
    | Stopped      // stop signal seen: the task returns
    | Idle         // nothing to do: the task sleeps and polls again
    | Interrupted  // synchronisation interrupted: the task returns
    | Advanced     // the record was advanced: the loop goes on

  datatype Iteration = Iteration(state: State, outcome: IterationOutcome)

  /** The no-op test: the snapshot is caught up and the last ready batch is already cached. */
  predicate IsCaughtUp(s: State, inp: SyncInputs) {
    && inp.rocksdbNextBatch == Some(inp.dal.latestProcessedBatch + 1)
    && inp.dal.lastReadyToBeLoadedBatch in s.storage
  }

  /** The commit under the write lock: new snapshot, new floor, and eviction of the batches at or below it. */
  function Commit(s: State, rocksdb: RocksdbStorage, latest: L1BatchNumber): (r: State)
    ensures r.rocksdb == Some(rocksdb) && r.l1BatchNumber == latest
    ensures KeysAboveFloor(r)
    ensures forall k :: k in s.storage && latest < k ==> k in r.storage && r.storage[k] == s.storage[k]
    ensures forall k :: k in r.storage ==> k in s.storage
  {
    State(Some(rocksdb), latest, map k | k in s.storage && k > latest :: s.storage[k])
  }

  /**
   * The first batch from `b` on that the preload loop does not insert: the first one up to
   * `maxDesired` without execute data, or the end of the range.
   */
  function PreloadEnd(dal: Dal, b: L1BatchNumber, maxDesired: L1BatchNumber): (end: L1BatchNumber)
    ensures b <= end
    ensures end <= maxDesired + 1 || end == b
    ensures forall k :: b <= k < end ==> LoadBatchExecuteData(dal, k).Some?
    ensures end <= maxDesired ==> LoadBatchExecuteData(dal, end).None?
    decreases if b <= maxDesired then maxDesired + 1 - b else 0
  {
    if b > maxDesired || LoadBatchExecuteData(dal, b).None? then b
    else PreloadEnd(dal, b + 1, maxDesired)
  }

  /** The entries the preload inserts for the batches `from ..= end - 1`. */
  function PreloadedRange(dal: Dal, from: L1BatchNumber, end: L1BatchNumber): map<L1BatchNumber, BatchData>
    requires forall k :: from <= k < end ==> LoadBatchExecuteData(dal, k).Some?
  {
    map k | from <= k < end :: LoadedBatch(dal, k)
  }

  lemma PreloadedRangeExtend(dal: Dal, from: L1BatchNumber, end: L1BatchNumber)
    requires from <= end
    requires forall k :: from <= k <= end ==> LoadBatchExecuteData(dal, k).Some?
    ensures PreloadedRange(dal, from, end + 1) == PreloadedRange(dal, from, end)[end := LoadedBatch(dal, end)]
  {
    assert LoadBatchExecuteData(dal, end).Some?;
  }

  lemma UpdateUnion(m: map<L1BatchNumber, BatchData>, p: map<L1BatchNumber, BatchData>, k: L1BatchNumber, v: BatchData)
    ensures (m + p)[k := v] == m + p[k := v]
  {
  }

  /** The preload loop: cache every batch above `MaxPresent(s)` up to the first gap or the last ready batch. */
  function Preload(s: State, dal: Dal): (r: State)
    ensures r.rocksdb == s.rocksdb && r.l1BatchNumber == s.l1BatchNumber
    ensures var from := MaxPresent(s) + 1;
      var end := PreloadEnd(dal, from, dal.lastReadyToBeLoadedBatch);
      && (forall k :: k in r.storage <==> k in s.storage || from <= k < end)
      && (forall k :: k in s.storage ==> r.storage[k] == s.storage[k])
      && (forall k :: from <= k < end ==> r.storage[k] == LoadedBatch(dal, k))
  {
    var from := MaxPresent(s) + 1;
    var end := PreloadEnd(dal, from, dal.lastReadyToBeLoadedBatch);
    s.(storage := s.storage + PreloadedRange(dal, from, end))
  }

  /** One iteration of the synchronisation loop. */
  function Next(s: State, inp: SyncInputs): (it: Iteration)
    ensures it.outcome == Stopped <==> inp.stopRequested
    ensures it.outcome == Idle <==> !inp.stopRequested && IsCaughtUp(s, inp)
    ensures it.outcome == Interrupted <==>
      !inp.stopRequested && !IsCaughtUp(s, inp) && inp.synchronized.None?
    ensures it.outcome != Advanced ==> it.state == s
  {
    if inp.stopRequested then Iteration(s, Stopped)
    else if IsCaughtUp(s, inp) then Iteration(s, Idle)
    else match inp.synchronized
      case None => Iteration(s, Interrupted)
      case Some(rocksdb) =>
        Iteration(Preload(Commit(s, rocksdb, inp.dal.latestProcessedBatch), inp.dal), Advanced)
  }

  // ----- properties of the synchronisation step -----

  /**
   * A batch the preload inserts lies in `MaxPresent(s) + 1 ..= lastReadyToBeLoadedBatch`, and
   * every batch from `MaxPresent(s) + 1` up to it has execute data: nothing past a gap is inserted.
   */
  lemma PreloadInsertsOnlyUpToFirstGap(s: State, dal: Dal, k: L1BatchNumber)
    requires k in Preload(s, dal).storage && k !in s.storage
    ensures MaxPresent(s) < k <= dal.lastReadyToBeLoadedBatch
    ensures forall g :: MaxPresent(s) < g <= k ==> LoadBatchExecuteData(dal, g).Some?
  {
  }

  /** The records a non-advancing outcome leaves untouched, and the floor an advancing one sets. */
  lemma IterationOutcomes(s: State, inp: SyncInputs)
    ensures Next(s, inp).outcome != Advanced ==> Next(s, inp).state == s
    ensures Next(s, inp).outcome == Advanced ==>
      && Next(s, inp).state.l1BatchNumber == inp.dal.latestProcessedBatch
      && Next(s, inp).state.rocksdb == inp.synchronized
      && KeysAboveFloor(Next(s, inp).state)
    ensures inp.stopRequested ==> Next(s, inp).outcome == Stopped
    ensures !inp.stopRequested && IsCaughtUp(s, inp) ==> Next(s, inp).outcome == Idle
    ensures !inp.stopRequested && !IsCaughtUp(s, inp) ==>
      (Next(s, inp).outcome == Interrupted <==> inp.synchronized.None?)
  {
  }

  /** I1 holds after every iteration that started with it. */
  lemma IterationKeepsKeysAboveFloor(s: State, inp: SyncInputs)
    requires KeysAboveFloor(s)
    ensures KeysAboveFloor(Next(s, inp).state)
  {
  }

  /** An iteration never overwrites or loses a cached batch above the new floor. */
  lemma IterationKeepsCachedBatches(s: State, inp: SyncInputs, k: L1BatchNumber)
    requires k in s.storage
    requires Next(s, inp).outcome != Advanced || inp.dal.latestProcessedBatch < k
    ensures k in Next(s, inp).state.storage && Next(s, inp).state.storage[k] == s.storage[k]
  {
    if Next(s, inp).outcome == Advanced {
      var c := Commit(s, inp.synchronized.value, inp.dal.latestProcessedBatch);
      assert k in c.storage;
    }
  }

  lemma CommitKeepsContiguity(s: State, rocksdb: RocksdbStorage, latest: L1BatchNumber)
    requires Contiguous(s)
    requires s.storage == map[] || s.l1BatchNumber <= latest
    ensures Contiguous(Commit(s, rocksdb, latest))
  {
    var c := Commit(s, rocksdb, latest);
    if c.storage != map[] {
      var top := MaxPresent(c);
      assert top in s.storage;
      forall k | latest < k <= top ensures k in c.storage {
        assert s.l1BatchNumber < k <= MaxPresent(s);
      }
    }
  }

  lemma PreloadKeepsContiguity(s: State, dal: Dal)
    requires Contiguous(s)
    ensures Contiguous(Preload(s, dal))
  {
    var r := Preload(s, dal);
    var from := MaxPresent(s) + 1;
    var end := PreloadEnd(dal, from, dal.lastReadyToBeLoadedBatch);
    assert s.l1BatchNumber <= MaxPresent(s);
    forall k | r.l1BatchNumber < k <= MaxPresent(r) ensures k in r.storage {
      if MaxPresent(s) < k {
        var top := MaxPresent(r);
        assert top in r.storage;
        assert top !in s.storage;
      }
    }
  }

  /**
   * I2: an iteration that starts from contiguous cached batches ends with contiguous ones,
   * provided the floor does not move backwards over cached batches.
   */
  lemma IterationKeepsContiguity(s: State, inp: SyncInputs)
    requires Contiguous(s)
    requires s.storage == map[] || s.l1BatchNumber <= inp.dal.latestProcessedBatch
    ensures Contiguous(Next(s, inp).state)
  {
    if Next(s, inp).outcome == Advanced {
      var c := Commit(s, inp.synchronized.value, inp.dal.latestProcessedBatch);
      CommitKeepsContiguity(s, inp.synchronized.value, inp.dal.latestProcessedBatch);
      PreloadKeepsContiguity(c, inp.dal);
    }
  }

  /** With contiguous cached batches, reads are served exactly for the floor up to the greatest cached batch. */
  lemma AvailabilityRange(s: State, dal: Dal, n: L1BatchNumber)
    requires s.rocksdb.Some? && Contiguous(s)
    ensures AccessStorage(s, n).Some? <==> s.l1BatchNumber <= n <= MaxPresent(s)
    ensures LoadBatch(s, dal, n).Some? <==> s.l1BatchNumber < n <= MaxPresent(s)
  {
    assert s.l1BatchNumber <= MaxPresent(s);
  }

  /**
   * Once a snapshot exists, `CanBeUsedForL1Batch` decides which views are served, and with I1
   * it decides which execute data are served: all its batches except the floor.
   */
  lemma AvailabilityDecidesReaders(s: State, dal: Dal, n: L1BatchNumber)
    requires s.rocksdb.Some?
    ensures AccessStorage(s, n).Some? <==> s.CanBeUsedForL1Batch(n)
    ensures KeysAboveFloor(s) ==>
      (LoadBatch(s, dal, n).Some? <==> s.CanBeUsedForL1Batch(n) && n != s.l1BatchNumber)
  {
  }

  /**
   * The no-op check is sound: when it holds, the floor is the latest processed batch and
   * synchronisation would hand back the same snapshot, advancing would leave the record as it is.
   */
  lemma CaughtUpSkipChangesNothing(s: State, inp: SyncInputs, rocksdb: RocksdbStorage)
    requires IsCaughtUp(s, inp) && KeysAboveFloor(s)
    requires s.l1BatchNumber == inp.dal.latestProcessedBatch && s.rocksdb == Some(rocksdb)
    ensures Preload(Commit(s, rocksdb, inp.dal.latestProcessedBatch), inp.dal) == s
  {
    var c := Commit(s, rocksdb, inp.dal.latestProcessedBatch);
    assert c.storage == s.storage;
    assert MaxPresent(c) >= inp.dal.lastReadyToBeLoadedBatch;
    var from := MaxPresent(c) + 1;
    assert PreloadEnd(inp.dal, from, inp.dal.lastReadyToBeLoadedBatch) == from;
    assert PreloadedRange(inp.dal, from, from) == map[];
  }

  /** The view of a cached batch ends with that batch's own diff. */
  lemma ViewEndsWithOwnDiff(s: State, n: L1BatchNumber)
    requires s.rocksdb.Some? && n in s.storage
    ensures AccessStorage(s, n).Some?
    ensures var d := AccessStorage(s, n).value.batchDiffs;
      |d| > 0 && d[|d| - 1] == s.storage[n].diff
  {
    var ks := KeysInRange(s.storage.Keys, 0, n);
    assert n in ks;
    var i :| 0 <= i < |ks| && ks[i] == n;
    var last := |ks| - 1;
    assert ks[last] in ks;
    assert i == last;
    BatchDiffsFollowKeyOrder(s.storage, n, ks);
  }

  /**
   * A batch an advancing iteration newly caches is served with the execute data loaded for
   * it, and its view ends with the diff assembled from its three diff queries.
   */
  lemma NewlyCachedBatchIsServed(s: State, inp: SyncInputs, n: L1BatchNumber)
    requires Next(s, inp).outcome == Advanced
    requires n in Next(s, inp).state.storage && n !in s.storage
    ensures LoadBatch(Next(s, inp).state, inp.dal, n) == LoadBatchExecuteData(inp.dal, n)
    ensures AccessStorage(Next(s, inp).state, n).Some?
    ensures var d := AccessStorage(Next(s, inp).state, n).value.batchDiffs;
      |d| > 0 && d[|d| - 1] == LoadBatchDiff(inp.dal, n)
  {
    var c := Commit(s, inp.synchronized.value, inp.dal.latestProcessedBatch);
    var r := Next(s, inp).state;
    assert r == Preload(c, inp.dal);
    assert n !in c.storage;
    assert r.storage[n] == LoadedBatch(inp.dal, n);
    ViewEndsWithOwnDiff(r, n);
  }

  /** Floor 10, nothing cached, batches 11 and 12 ready: one iteration caches exactly 11 and 12. */
  lemma ScenarioFirstIteration(dal: Dal, r0: RocksdbStorage, r1: RocksdbStorage)
    requires dal.latestProcessedBatch == 10 && dal.lastReadyToBeLoadedBatch == 12
    requires dal.firstL2BlockInBatch(11).Some? && dal.firstL2BlockInBatch(12).Some?
    ensures Next(State(Some(r0), 10, map[]), SyncInputs(false, dal, Some(11), Some(r1)))
         == Iteration(State(Some(r1), 10, map[11 := LoadedBatch(dal, 11), 12 := LoadedBatch(dal, 12)]), Advanced)
  {
    var c := Commit(State(Some(r0), 10, map[]), r1, 10);
    assert c == State(Some(r1), 10, map[]);
    assert MaxPresent(c) == 10;
    assert PreloadEnd(dal, 11, 12) == 13 by {
      assert PreloadEnd(dal, 13, 12) == 13;
      assert PreloadEnd(dal, 12, 12) == PreloadEnd(dal, 13, 12);
    }
    assert PreloadedRange(dal, 11, 13) == map[11 := LoadedBatch(dal, 11), 12 := LoadedBatch(dal, 12)];
  }

  /**
   * When batch 11 has then been processed, the next iteration moves the floor to 11, evicts
   * 11, keeps 12 and loads nothing more.
   */
  lemma ScenarioSecondIteration(dal: Dal, r1: RocksdbStorage, r2: RocksdbStorage, b11: BatchData, b12: BatchData)
    requires dal.latestProcessedBatch == 11 && dal.lastReadyToBeLoadedBatch == 12
    ensures Next(State(Some(r1), 10, map[11 := b11, 12 := b12]), SyncInputs(false, dal, Some(11), Some(r2)))
         == Iteration(State(Some(r2), 11, map[12 := b12]), Advanced)
  {
    var c := Commit(State(Some(r1), 10, map[11 := b11, 12 := b12]), r2, 11);
    assert c == State(Some(r2), 11, map[12 := b12]);
    assert c.storage.Keys == {12};
    assert MaxPresent(c) in c.storage;
    assert PreloadEnd(dal, 13, 12) == 13;
    assert PreloadedRange(dal, 13, 13) == map[];
  }

  /**
   * The two iterations together, as a reader sees them (`AccessStorage` answers `None` exactly
   * where `CanBeUsedForL1Batch` fails): after the first, batch 11 can be read and batch 13
   * cannot; after the second, batch 10 can no longer be read.
   */
  lemma TwoIterationScenario(dal1: Dal, dal2: Dal, r0: RocksdbStorage, r1: RocksdbStorage, r2: RocksdbStorage)
    requires dal1.latestProcessedBatch == 10 && dal1.lastReadyToBeLoadedBatch == 12
    requires dal1.firstL2BlockInBatch(11).Some? && dal1.firstL2BlockInBatch(12).Some?
    requires dal2.latestProcessedBatch == 11 && dal2.lastReadyToBeLoadedBatch == 12
    ensures var s1 := Next(State(Some(r0), 10, map[]), SyncInputs(false, dal1, Some(11), Some(r1))).state;
      var s2 := Next(s1, SyncInputs(false, dal2, Some(11), Some(r2))).state;
      && s1.storage.Keys == {11, 12}
      && s1.CanBeUsedForL1Batch(11) && !s1.CanBeUsedForL1Batch(13)
      && s2.l1BatchNumber == 11 && s2.storage.Keys == {12}
      && !s2.CanBeUsedForL1Batch(10) && s2.CanBeUsedForL1Batch(12)
  {
    ScenarioFirstIteration(dal1, r0, r1);
    var s1 := State(Some(r1), 10, map[11 := LoadedBatch(dal1, 11), 12 := LoadedBatch(dal1, 12)]);
    ScenarioSecondIteration(dal2, r1, r2, LoadedBatch(dal1, 11), LoadedBatch(dal1, 12));
    var s2 := State(Some(r2), 11, map[12 := LoadedBatch(dal1, 12)]);
    assert 13 !in s1.storage && 10 !in s2.storage;
  }

  // ----- the shared record and its writer -----

  /**
   * The lock-guarded record shared by the readers and the synchronisation task; `Read` is
   * what a reader sees while it holds the read lock.
   */
  class SharedState {
    var rocksdb: Option<RocksdbStorage>
    var l1BatchNumber: L1BatchNumber
    var storage: map<L1BatchNumber, BatchData>

    function Read(): State
      reads this
    {
      State(rocksdb, l1BatchNumber, storage)
    }

    /** The record as created with the storage layer: no snapshot, floor 0, nothing cached. */
    constructor ()
      ensures Read() == State(None, 0, map[])
      ensures Contiguous(Read())
    {
      rocksdb := None;
      l1BatchNumber := 0;
      storage := map[];
    }

    /** One iteration of the synchronisation task's loop, from the stop check to the end of the preload. */
    method RunIteration(inp: SyncInputs) returns (outcome: IterationOutcome)
      modifies this
      ensures Iteration(Read(), outcome) == Next(old(Read()), inp)
    {
      if inp.stopRequested {
        return Stopped;
      }
      var latest := inp.dal.latestProcessedBatch;
      if inp.rocksdbNextBatch == Some(latest + 1) && inp.dal.lastReadyToBeLoadedBatch in storage {
        return Idle;
      }
      if inp.synchronized.None? {
        return Interrupted;
      }
      CommitSynchronized(inp.synchronized.value, latest);
      PreloadBatches(inp.dal);
      return Advanced;
    }

    /** Under the write lock: publish the synchronised snapshot, move the floor and evict the batches at or below it. */
    method CommitSynchronized(synchronized: RocksdbStorage, latest: L1BatchNumber)
      modifies this
      ensures Read() == Commit(old(Read()), synchronized, latest)
    {
      rocksdb := Some(synchronized);
      l1BatchNumber := latest;
      storage := map k | k in storage && k > latest :: storage[k];
    }

    /** The preload step: the batches from just above the greatest cached one up to the last ready one. */
    method PreloadBatches(dal: Dal)
      modifies this
      ensures Read() == Preload(old(Read()), dal)
    {
      var maxPresent := match LastKey(storage) case Some(last) => last case None => l1BatchNumber;
      assert maxPresent == MaxPresent(Read());
      var maxDesired := dal.lastReadyToBeLoadedBatch;
      InsertUntilGap(dal, maxPresent + 1, maxDesired);
    }

    /** The `for` loop over `from ..= maxDesired`, which `break`s at the first batch without execute data. */
    method InsertUntilGap(dal: Dal, from: L1BatchNumber, maxDesired: L1BatchNumber)
      modifies this`storage
      ensures storage == old(storage) + PreloadedRange(dal, from, PreloadEnd(dal, from, maxDesired))
    {
      var b := from;
      while b <= maxDesired
        invariant from <= b <= PreloadEnd(dal, from, maxDesired)
        invariant PreloadEnd(dal, from, maxDesired) == PreloadEnd(dal, b, maxDesired)
        invariant storage == old(storage) + PreloadedRange(dal, from, b)
        decreases maxDesired + 1 - b
      {
        var executeData := LoadBatchExecuteData(dal, b);
        if executeData.None? {
          break;
        }
        assert PreloadEnd(dal, b, maxDesired) == PreloadEnd(dal, b + 1, maxDesired);
        PreloadedRangeExtend(dal, from, b);
        UpdateUnion(old(storage), PreloadedRange(dal, from, b), b, LoadedBatch(dal, b));
        storage := storage[b := BatchData(executeData.value, LoadBatchDiff(dal, b))];
        b := b + 1;
      }
    }
  }
}
