/**
 The Estimate handler as a pure pipeline over an abstract provider: dial,
 fetch the latest header, parse the block-scan window, fetch the fee history,
 then normalise and average three percentile tiers. Each run also reports the
 provider calls it made, in order, so that the ordering of steps is visible.
 */
module Estimate {
  import opened Results
  import opened Errors
  import opened Gas
  import Decimal

  /** The reward percentiles requested from the provider: tiers 0, 1 and 2. */
  const Percentiles: seq<int> := [25, 50, 75]

  /**
   What the provider answers during one request: whether the connection
   succeeds, the latest header's block number (None when the query fails), and
   the answer to a fee-history query for (block count, newest block, percentiles).
   */
  datatype Provider = Provider(
    dialOk: bool,
    latestBlock: Option<int>,
    feeHistory: (nat, int, seq<int>) -> Option<FeeHistory>)

  /** A request made to the provider. */
  datatype Call = Dial | LatestHeader | FeeHistoryQuery(blockCount: nat, newestBlock: int, percentiles: seq<int>)

  /** The three tier estimates as the decimal strings of the response body. */
  datatype GasEstimate = GasEstimate(slow: string, average: string, fast: string)

  /** A failure reported through the error handler with its kind, title and message, or a runtime panic. */
  datatype Failure =
    | Handled(kind: ErrorKind, title: string, message: string)
    | Panicked(reason: Panic)

  /** The provider calls one request made, and what it produced. */
  datatype Run = Run(calls: seq<Call>, outcome: Result<GasEstimate, Failure>)

  const DialFailure := Handled(ProviderError, "Provider connection failed", "Failed to connect to provider.")
  const HeaderFailure := Handled(ProviderError, "Provider query failed", "Failed to obtain latest block.")
  const WindowFailure := Handled(ConfigurationError, "Configuration error", "Failed to parse GasEstimateBlockScan.")
  const HistoryFailure := Handled(ProviderError, "Provider query failed", "Failed to obtain fee history.")

  /** Every reward row of the first `blocks` entries has all three tiers. */
  predicate HasAllTiers(h: FeeHistory, blocks: nat)
    requires blocks <= |h.reward|
  {
    forall i :: 0 <= i < blocks ==> |h.reward[i]| >= 3
  }

  /** The normalised records carry the reward rows unchanged, so they have every tier exactly when the rows do. */
  lemma RecordsHaveAllTiers(h: FeeHistory, blocks: nat)
    requires FeeHistoryToDataPerBlock(h, blocks).Ok?
    ensures var records := FeeHistoryToDataPerBlock(h, blocks).value;
      && (HasTier(records, 2) <==> HasAllTiers(h, blocks))
      && (HasTier(records, 2) ==> HasTier(records, 1) && HasTier(records, 0))
  {
  }

  /**
   Normalise the fee history, then average tiers 0, 1 and 2 into slow, average
   and fast, in that order; the first panic ends the computation.
   */
  function Tiers(h: FeeHistory, blocks: nat): (r: Result<GasEstimate, Failure>)
    ensures r.Err? ==> r.error.Panicked?
    ensures r.Ok? <==>
      && 0 < blocks
      && blocks <= |h.baseFee| && blocks <= |h.gasUsedRatio| && blocks <= |h.reward|
      && HasAllTiers(h, blocks)
    ensures blocks == 0 ==> r == Err(Panicked(DivisionByZero))
    ensures !(blocks <= |h.baseFee| && blocks <= |h.gasUsedRatio| && blocks <= |h.reward|) ==>
      r == Err(Panicked(IndexOutOfRange))
    ensures (0 < blocks && blocks <= |h.baseFee| && blocks <= |h.gasUsedRatio| && blocks <= |h.reward|
             && !HasAllTiers(h, blocks)) ==> r == Err(Panicked(IndexOutOfRange))
    ensures r.Ok? ==>
      var records := FeeHistoryToDataPerBlock(h, blocks).value;
      && r.value.slow == Decimal.FormatInt(AveragePriorityFeePerGas(records, 0).value)
      && r.value.average == Decimal.FormatInt(AveragePriorityFeePerGas(records, 1).value)
      && r.value.fast == Decimal.FormatInt(AveragePriorityFeePerGas(records, 2).value)
  {
    var normalised := FeeHistoryToDataPerBlock(h, blocks);
    if normalised.Err? then
      Err(Panicked(normalised.error))
    else
      var records := normalised.value;
      RecordsHaveAllTiers(h, blocks);
      var slow := AveragePriorityFeePerGas(records, 0);
      var average := AveragePriorityFeePerGas(records, 1);
      var fast := AveragePriorityFeePerGas(records, 2);
      if slow.Err? then
        Err(Panicked(slow.error))
      else if average.Err? then
        Err(Panicked(average.error))
      else if fast.Err? then
        Err(Panicked(fast.error))
      else
        Ok(GasEstimate(Decimal.FormatInt(slow.value), Decimal.FormatInt(average.value), Decimal.FormatInt(fast.value)))
  }

  /**
   One request to the estimate endpoint, with `blockScan` the configured
   window text. Provider failures and a bad window are reported with their
   kind; nothing is retried and the first failure ends the request.
   */
  function Estimate(p: Provider, blockScan: string): (r: Run)
    // The calls made are always a prefix of dial, header, fee history.
    ensures 1 <= |r.calls| <= 3 && r.calls[0] == Dial
    ensures |r.calls| >= 2 ==> r.calls[1] == LatestHeader
    ensures |r.calls| >= 2 <==> p.dialOk
    // The fee history is queried exactly when the header and the window were both obtained.
    ensures |r.calls| == 3 <==> p.dialOk && p.latestBlock.Some? && Decimal.ParseUint(blockScan).Ok?
    ensures |r.calls| == 3 ==>
      r.calls[2] == FeeHistoryQuery(Decimal.ParseUint(blockScan).value, p.latestBlock.value, Percentiles)
    // Error kinds.
    ensures !p.dialOk ==> r.outcome == Err(DialFailure)
    ensures p.dialOk && p.latestBlock.None? ==> r.outcome == Err(HeaderFailure)
    ensures p.dialOk && p.latestBlock.Some? && Decimal.ParseUint(blockScan).Err? ==> r.outcome == Err(WindowFailure)
    ensures |r.calls| == 3 && p.feeHistory(r.calls[2].blockCount, r.calls[2].newestBlock, Percentiles).None? ==>
      r.outcome == Err(HistoryFailure)
    ensures (r.outcome.Err? && r.outcome.error.Handled? && r.outcome.error.kind == ConfigurationError)
      <==> p.dialOk && p.latestBlock.Some? && Decimal.ParseUint(blockScan).Err?
    ensures (r.outcome.Err? && r.outcome.error.Handled? && r.outcome.error.kind == ProviderError)
      <==> !p.dialOk || p.latestBlock.None? ||
           (Decimal.ParseUint(blockScan).Ok? &&
            p.feeHistory(Decimal.ParseUint(blockScan).value, p.latestBlock.value, Percentiles).None?)
    // A response is produced exactly when every call succeeded and the tiers could be computed from it.
    ensures r.outcome.Ok? <==>
      && |r.calls| == 3
      && p.feeHistory(r.calls[2].blockCount, r.calls[2].newestBlock, Percentiles).Some?
      && Tiers(p.feeHistory(r.calls[2].blockCount, r.calls[2].newestBlock, Percentiles).value, r.calls[2].blockCount).Ok?
    ensures |r.calls| == 3 && p.feeHistory(r.calls[2].blockCount, r.calls[2].newestBlock, Percentiles).Some? ==>
      r.outcome == Tiers(p.feeHistory(r.calls[2].blockCount, r.calls[2].newestBlock, Percentiles).value, r.calls[2].blockCount)
  {
    if !p.dialOk then
      Run([Dial], Err(DialFailure))
    else
      match p.latestBlock
      case None => Run([Dial, LatestHeader], Err(HeaderFailure))
      case Some(head) =>
        match Decimal.ParseUint(blockScan)
        case Err(_) => Run([Dial, LatestHeader], Err(WindowFailure))
        case Ok(blocks) =>
          var calls := [Dial, LatestHeader, FeeHistoryQuery(blocks, head, Percentiles)];
          match p.feeHistory(blocks, head, Percentiles)
          case None => Run(calls, Err(HistoryFailure))
          case Some(h) => Run(calls, Tiers(h, blocks))
  }

  /** A window of "0" parses, so the request reaches the provider, and then panics dividing by zero. */
  lemma ZeroWindowPanics(p: Provider, blockScan: string)
    requires p.dialOk && p.latestBlock.Some?
    requires Decimal.ParseUint(blockScan) == Ok(0)
    requires p.feeHistory(0, p.latestBlock.value, Percentiles).Some?
    ensures Estimate(p, blockScan).outcome == Err(Panicked(DivisionByZero))
    ensures Estimate(p, blockScan).calls[2] == FeeHistoryQuery(0, p.latestBlock.value, Percentiles)
  {
  }

  /** The fee history a test mocks: three blocks from block 100, every block rewarding 500, 600 and 700. */
  const MockHistory := FeeHistory(
    100,
    [100, 200, 300],
    [0x3FD0_0000_0000_0000, 0x3FE0_0000_0000_0000, 0x3FE8_0000_0000_0000],
    [[500, 600, 700], [500, 600, 700], [500, 600, 700]])

  /** Over that history with a window of three, the tiers are the constant rewards 500, 600 and 700. */
  lemma MockHistoryTiers()
    ensures Tiers(MockHistory, 3) == Ok(GasEstimate("500", "600", "700"))
  {
    var records := FeeHistoryToDataPerBlock(MockHistory, 3).value;
    assert forall i :: 0 <= i < 3 ==> records[i].priorityFeePerGas == MockHistory.reward[i];
    assert forall i :: 0 <= i < 3 ==> MockHistory.reward[i] == [500, 600, 700];
    assert HasAllTiers(MockHistory, 3);
    AverageOfUniform(records, 0, 500);
    AverageOfUniform(records, 1, 600);
    AverageOfUniform(records, 2, 700);
    assert Decimal.FormatInt(500) == "500" by {
      assert Decimal.FormatNat(5) == "5";
      assert Decimal.FormatNat(50) == "50";
    }
    assert Decimal.FormatInt(600) == "600" by {
      assert Decimal.FormatNat(6) == "6";
      assert Decimal.FormatNat(60) == "60";
    }
    assert Decimal.FormatInt(700) == "700" by {
      assert Decimal.FormatNat(7) == "7";
      assert Decimal.FormatNat(70) == "70";
    }
  }
}
