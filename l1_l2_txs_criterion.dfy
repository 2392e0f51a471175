/**
 * The state keeper's L1 gas seal criterion: a block is sealed once the L1 gas its L1
 * transactions would cost to execute reaches the configured bound.
 */
module L1L2TxsCriterion {

  const U32_MAX: int := 0xFFFF_FFFF

  /** Rust's `u32`. */
  type U32 = x: int | 0 <= x <= U32_MAX

  /** `u32` values above zero. */
  type PositiveU32 = x: int | 0 < x <= U32_MAX witness 1

  /** `L1_BATCH_EXECUTE_BASE_COST`; its value is defined outside this model. */
  const L1_BATCH_EXECUTE_BASE_COST: U32

  /** `L1_OPERATION_EXECUTE_COST`; its value is defined outside this model. */
  const L1_OPERATION_EXECUTE_COST: PositiveU32

  /** Inputs of `should_seal` that this criterion ignores. */
  type SealData(==)
  type ProtocolVersionId(==)

  datatype SealResolution = NoSeal | IncludeAndSeal

  /** The L1 gas of a block holding `l1TxCount` L1 transactions, computed without wrap-around. */
  function L1Gas(l1TxCount: nat): nat {
    L1_BATCH_EXECUTE_BASE_COST + l1TxCount * L1_OPERATION_EXECUTE_COST
  }

  /** Whether the `u32` arithmetic of `should_seal` stays in range for `l1TxCount`. */
  predicate FitsU32(l1TxCount: nat) {
    L1Gas(l1TxCount) <= U32_MAX
  }

  /**
   * `should_seal`, with the configured gas bound (the rounded product of the configuration's
   * maximal single transaction gas and its closing percentage) supplied as `gasBound`.
   */
  function ShouldSeal(
    gasBound: U32,
    blockOpenTimestampMs: nat,
    txCount: nat,
    l1TxCount: nat,
    blockData: SealData,
    txData: SealData,
    protocolVersion: ProtocolVersionId): (r: SealResolution)
    requires FitsU32(l1TxCount)
    ensures r == IncludeAndSeal <==> L1Gas(l1TxCount) >= gasBound
    ensures r == NoSeal <==> L1Gas(l1TxCount) < gasBound
  {
    var l1Gas := L1_BATCH_EXECUTE_BASE_COST + (l1TxCount as U32) * L1_OPERATION_EXECUTE_COST;
    if l1Gas >= gasBound then IncludeAndSeal else NoSeal
  }

  /** The decision depends on the gas bound and the L1 transaction count only. */
  lemma DecisionIgnoresOtherInputs(
    gasBound: U32, l1TxCount: nat,
    t1: nat, n1: nat, b1: SealData, x1: SealData, p1: ProtocolVersionId,
    t2: nat, n2: nat, b2: SealData, x2: SealData, p2: ProtocolVersionId)
    requires FitsU32(l1TxCount)
    ensures ShouldSeal(gasBound, t1, n1, l1TxCount, b1, x1, p1)
         == ShouldSeal(gasBound, t2, n2, l1TxCount, b2, x2, p2)
  {
  }

  /** Once a count of L1 transactions seals the block, every larger count does too. */
  lemma {:induction false} SealIsMonotonic(
    gasBound: U32, c: nat, d: nat,
    t: nat, n: nat, b: SealData, x: SealData, p: ProtocolVersionId)
    requires c <= d && FitsU32(d)
    requires ShouldSeal(gasBound, t, n, c, b, x, p) == IncludeAndSeal
    ensures FitsU32(c)
    ensures ShouldSeal(gasBound, t, n, d, b, x, p) == IncludeAndSeal
  {
    assert c * L1_OPERATION_EXECUTE_COST <= d * L1_OPERATION_EXECUTE_COST by {
      MultiplyMonotonic(c, d, L1_OPERATION_EXECUTE_COST);
    }
  }

  lemma MultiplyMonotonic(c: nat, d: nat, m: nat)
    requires c <= d
    ensures c * m <= d * m
  {
  }

  /** A block without L1 transactions is not sealed while the base cost is below the bound. */
  lemma ZeroL1TxsDoNotSeal(
    gasBound: U32, t: nat, n: nat, b: SealData, x: SealData, p: ProtocolVersionId)
    requires L1_BATCH_EXECUTE_BASE_COST < gasBound
    ensures FitsU32(0)
    ensures ShouldSeal(gasBound, t, n, 0, b, x, p) == NoSeal
  {
  }

  /**
   * The exact boundary: with `k = (gasBound - BASE - 1) / COST`, `k` L1 transactions do not
   * seal the block and `k + 1` do.
   */
  lemma {:induction false} TxCountBoundary(
    gasBound: U32, t: nat, n: nat, b: SealData, x: SealData, p: ProtocolVersionId)
    requires L1_BATCH_EXECUTE_BASE_COST < gasBound
    requires FitsU32((gasBound - L1_BATCH_EXECUTE_BASE_COST - 1) / L1_OPERATION_EXECUTE_COST + 1)
    ensures var k := (gasBound - L1_BATCH_EXECUTE_BASE_COST - 1) / L1_OPERATION_EXECUTE_COST;
      && FitsU32(k)
      && ShouldSeal(gasBound, t, n, k, b, x, p) == NoSeal
      && ShouldSeal(gasBound, t, n, k + 1, b, x, p) == IncludeAndSeal
  {
    GasBoundary(gasBound);
  }

  /** The L1 gas of `k` and of `k + 1` L1 transactions lies on either side of the bound. */
  lemma GasBoundary(gasBound: U32)
    requires L1_BATCH_EXECUTE_BASE_COST < gasBound
    ensures var k := (gasBound - L1_BATCH_EXECUTE_BASE_COST - 1) / L1_OPERATION_EXECUTE_COST;
      L1Gas(k) < gasBound <= L1Gas(k + 1)
  {
    GasAroundQuotient(gasBound - L1_BATCH_EXECUTE_BASE_COST - 1);
  }

  /** The largest count whose per-operation cost fits `budget`, and the count after it. */
  lemma GasAroundQuotient(budget: nat)
    ensures L1Gas(budget / L1_OPERATION_EXECUTE_COST) <= L1_BATCH_EXECUTE_BASE_COST + budget
    ensures L1_BATCH_EXECUTE_BASE_COST + budget < L1Gas(budget / L1_OPERATION_EXECUTE_COST + 1)
  {
    var k := budget / L1_OPERATION_EXECUTE_COST;
    QuotientBounds(budget, L1_OPERATION_EXECUTE_COST, k);
    GasAroundBudget(k, budget);
  }

  lemma QuotientBounds(a: nat, d: nat, q: nat)
    requires 0 < d && q == a / d
    ensures q * d <= a < q * d + d
  {
    assert q * d + a % d == a;
  }

  /** A count whose per-operation cost fits a budget, while one more would not, straddles base plus budget. */
  lemma GasAroundBudget(k: nat, budget: nat)
    requires k * L1_OPERATION_EXECUTE_COST <= budget < k * L1_OPERATION_EXECUTE_COST + L1_OPERATION_EXECUTE_COST
    ensures L1Gas(k) <= L1_BATCH_EXECUTE_BASE_COST + budget < L1Gas(k + 1)
  {
    assert (k + 1) * L1_OPERATION_EXECUTE_COST == k * L1_OPERATION_EXECUTE_COST + L1_OPERATION_EXECUTE_COST;
  }
}
