/**
 The fee-history aggregation of package `gas`: turning a provider's fee history
 into one record per block, and averaging one reward percentile over those records.
 Wei amounts are Go `*big.Int` values, so they are unbounded `int`s here.
 */
module Gas {
  import opened Results

  /** A float64 gas-used ratio, carried as its IEEE-754 bit pattern: nothing computes with it. */
  type Ratio = bv64

  /**
   The provider's fee-history answer: arrays aligned by index, entry 0 being
   block `oldestBlock`; `reward[i]` holds one reward per requested percentile.
   */
  datatype FeeHistory = FeeHistory(
    oldestBlock: int,
    baseFee: seq<int>,
    gasUsedRatio: seq<Ratio>,
    reward: seq<seq<int>>)

  /** The fee data of one block. */
  datatype BlockFeeData = BlockFeeData(
    number: int,
    baseFeePerGas: int,
    gasUsedRatio: Ratio,
    priorityFeePerGas: seq<int>)

  /** The Go runtime panics this code can raise. */
  datatype Panic = IndexOutOfRange | DivisionByZero

  /** Entry `index` exists in each of the three arrays the walk reads. */
  predicate HasEntry(h: FeeHistory, index: nat) {
    index < |h.baseFee| && index < |h.gasUsedRatio| && index < |h.reward|
  }

  /** The record built from entry `index` of `h`, labelled as block `number`. */
  function RecordAt(h: FeeHistory, number: int, index: nat): BlockFeeData
    requires HasEntry(h, index)
  {
    BlockFeeData(number, h.baseFee[index], h.gasUsedRatio[index], h.reward[index])
  }

  /**
   The loop of FeeHistoryToDataPerBlock from the state (`blockNum`, `index`) on:
   it emits a record while `untilBlock < blockNum`, then steps the block number
   down and the index up. Reading past the end of an array panics.
   */
  function Walk(h: FeeHistory, blockNum: int, untilBlock: int, index: nat): (r: Result<seq<BlockFeeData>, Panic>)
    ensures var count := if untilBlock < blockNum then blockNum - untilBlock else 0;
      && (r.Ok? <==> count == 0 || HasEntry(h, index + count - 1))
      && (r.Err? ==> r.error == IndexOutOfRange)
      && (r.Ok? ==> |r.value| == count)
      && (r.Ok? ==> forall k :: 0 <= k < count ==> r.value[k] == RecordAt(h, blockNum - k, index + k))
    decreases blockNum - untilBlock
  {
    if untilBlock >= blockNum then
      Ok([])
    else if !HasEntry(h, index) then
      Err(IndexOutOfRange)
    else
      var rest := Walk(h, blockNum - 1, untilBlock, index + 1);
      if rest.Err? then
        rest
      else
        var records := [RecordAt(h, blockNum, index)] + rest.value;
        assert forall k :: 0 <= k < |records| ==> records[k] == RecordAt(h, blockNum - k, index + k) by {
          forall k | 0 <= k < |records|
            ensures records[k] == RecordAt(h, blockNum - k, index + k)
          {
            if k > 0 {
              assert records[k] == rest.value[k - 1];
            }
          }
        }
        Ok(records)
  }

  /**
   FeeHistoryToDataPerBlock: one record per block of the window, record `i`
   holding entry `i` of every array and labelled `oldestBlock - i`. It panics
   exactly when some array has fewer than `blocks` entries.
   */
  function FeeHistoryToDataPerBlock(h: FeeHistory, blocks: nat): (r: Result<seq<BlockFeeData>, Panic>)
    ensures r.Ok? <==> blocks <= |h.baseFee| && blocks <= |h.gasUsedRatio| && blocks <= |h.reward|
    ensures r.Err? ==> r.error == IndexOutOfRange
    ensures r.Ok? ==> |r.value| == blocks
    ensures r.Ok? ==> forall i :: 0 <= i < blocks ==>
      r.value[i] == BlockFeeData(h.oldestBlock - i, h.baseFee[i], h.gasUsedRatio[i], h.reward[i])
  {
    Walk(h, h.oldestBlock, h.oldestBlock - blocks, 0)
  }

  /** The same walk as a loop over a mutable block number and index, as the Go code runs it. */
  method NormalizeByLoop(h: FeeHistory, blocks: nat) returns (r: Result<seq<BlockFeeData>, Panic>)
    ensures r.Ok? <==> blocks <= |h.baseFee| && blocks <= |h.gasUsedRatio| && blocks <= |h.reward|
    ensures r.Err? ==> r.error == IndexOutOfRange
    ensures r.Ok? ==> |r.value| == blocks
    ensures r.Ok? ==> forall i :: 0 <= i < blocks ==> r.value[i] == RecordAt(h, h.oldestBlock - i, i)
    ensures r == FeeHistoryToDataPerBlock(h, blocks)
  {
    var blockNum := h.oldestBlock;
    var untilBlock := h.oldestBlock - blocks;
    var index := 0;
    var feeData := [];
    while untilBlock < blockNum
      invariant index <= blocks
      invariant blockNum == h.oldestBlock - index
      invariant |feeData| == index
      invariant index == 0 || HasEntry(h, index - 1)
      invariant forall k :: 0 <= k < index ==> feeData[k] == RecordAt(h, h.oldestBlock - k, k)
      decreases blockNum - untilBlock
    {
      if !HasEntry(h, index) {
        return Err(IndexOutOfRange);
      }
      feeData := feeData + [RecordAt(h, blockNum, index)];
      blockNum := blockNum - 1;
      index := index + 1;
    }
    ghost var expected := FeeHistoryToDataPerBlock(h, blocks).value;
    assert feeData == expected;
    return Ok(feeData);
  }

  /** Every record has a reward at position `tier`. */
  predicate HasTier(feeData: seq<BlockFeeData>, tier: nat) {
    forall i :: 0 <= i < |feeData| ==> tier < |feeData[i].priorityFeePerGas|
  }

  /** The sum of the `tier`-th reward over the records, accumulated front to back. */
  function TierSum(feeData: seq<BlockFeeData>, tier: nat): int
    requires HasTier(feeData, tier)
  {
    if feeData == [] then 0
    else TierSum(feeData[..|feeData| - 1], tier) + feeData[|feeData| - 1].priorityFeePerGas[tier]
  }

  /**
   averagePriorityFeePerGas: the integer mean of the `tier`-th reward. The sum
   loop panics on a record with too few rewards; an empty record list then
   panics in the division.
   */
  function AveragePriorityFeePerGas(feeData: seq<BlockFeeData>, tier: nat): (r: Result<int, Panic>)
    ensures r.Ok? <==> feeData != [] && HasTier(feeData, tier)
    ensures r == Err(IndexOutOfRange) <==> !HasTier(feeData, tier)
    ensures r == Err(DivisionByZero) <==> feeData == []
    ensures r.Ok? ==>
      r.value * |feeData| <= TierSum(feeData, tier) < r.value * |feeData| + |feeData|
  {
    if !HasTier(feeData, tier) then Err(IndexOutOfRange)
    else if feeData == [] then Err(DivisionByZero)
    else Ok(TierSum(feeData, tier) / |feeData|)
  }

  /** The average as the Go loop computes it: a running total, then one division. */
  method AverageByLoop(feeData: seq<BlockFeeData>, tier: nat) returns (r: Result<int, Panic>)
    ensures r == AveragePriorityFeePerGas(feeData, tier)
  {
    var total := 0;
    for i := 0 to |feeData|
      invariant HasTier(feeData[..i], tier)
      invariant total == TierSum(feeData[..i], tier)
    {
      if |feeData[i].priorityFeePerGas| <= tier {
        return Err(IndexOutOfRange);
      }
      assert feeData[..i + 1][..i] == feeData[..i];
      total := total + feeData[i].priorityFeePerGas[tier];
    }
    assert feeData[..|feeData|] == feeData;
    if |feeData| == 0 {
      return Err(DivisionByZero);
    }
    return Ok(total / |feeData|);
  }

  // Properties of the sum and the average

  lemma {:induction false} TierSumAppend(a: seq<BlockFeeData>, b: seq<BlockFeeData>, tier: nat)
    requires HasTier(a, tier) && HasTier(b, tier)
    ensures HasTier(a + b, tier)
    ensures TierSum(a + b, tier) == TierSum(a, tier) + TierSum(b, tier)
    decreases |b|
  {
    if b == [] {
      assert a + b == a;
    } else {
      var b' := b[..|b| - 1];
      assert (a + b)[..|a + b| - 1] == a + b';
      TierSumAppend(a, b', tier);
    }
  }

  /** Removing record `j` takes exactly its reward out of the sum. */
  lemma TierSumRemove(s: seq<BlockFeeData>, j: nat, tier: nat)
    requires j < |s| && HasTier(s, tier)
    ensures HasTier(s[..j] + s[j + 1..], tier)
    ensures TierSum(s, tier) == TierSum(s[..j] + s[j + 1..], tier) + s[j].priorityFeePerGas[tier]
  {
    assert s == s[..j] + [s[j]] + s[j + 1..];
    assert [s[j]][..0] == [];
    TierSumAppend(s[..j], [s[j]], tier);
    TierSumAppend(s[..j] + [s[j]], s[j + 1..], tier);
    TierSumAppend(s[..j], s[j + 1..], tier);
  }

  /** Whether every record has the tier depends only on which records there are. */
  lemma HasTierPermutation(a: seq<BlockFeeData>, b: seq<BlockFeeData>, tier: nat)
    requires multiset(a) == multiset(b) && HasTier(a, tier)
    ensures HasTier(b, tier)
  {
    forall i | 0 <= i < |b|
      ensures tier < |b[i].priorityFeePerGas|
    {
      assert b[i] in multiset(a);
    }
  }

  /** Deleting the same record from two permutations of each other leaves permutations. */
  lemma RemoveKeepsPermutation(a: seq<BlockFeeData>, b: seq<BlockFeeData>, j: nat)
    requires a != [] && j < |b| && b[j] == a[|a| - 1]
    requires multiset(a) == multiset(b)
    ensures multiset(a[..|a| - 1]) == multiset(b[..j] + b[j + 1..])
  {
    var x := b[j];
    assert a == a[..|a| - 1] + [x];
    assert multiset(a[..|a| - 1]) == multiset(a) - multiset{x};
    assert b == b[..j] + [x] + b[j + 1..];
    assert multiset(b) == multiset(b[..j]) + multiset{x} + multiset(b[j + 1..]);
    assert multiset(b[..j] + b[j + 1..]) == multiset(b) - multiset{x};
  }

  /** The sum does not depend on the order of the records. */
  lemma {:induction false} TierSumPermutation(a: seq<BlockFeeData>, b: seq<BlockFeeData>, tier: nat)
    requires multiset(a) == multiset(b) && HasTier(a, tier)
    ensures HasTier(b, tier)
    ensures TierSum(a, tier) == TierSum(b, tier)
    decreases |a|
  {
    HasTierPermutation(a, b, tier);
    if a != [] {
      var x := a[|a| - 1];
      assert x in multiset(b);
      var j :| 0 <= j < |b| && b[j] == x;
      RemoveKeepsPermutation(a, b, j);
      TierSumRemove(b, j, tier);
      TierSumPermutation(a[..|a| - 1], b[..j] + b[j + 1..], tier);
    }
  }

  /** Reordering the records leaves the average, and whether it panics, unchanged. */
  lemma AverageOrderIndependent(a: seq<BlockFeeData>, b: seq<BlockFeeData>, tier: nat)
    requires multiset(a) == multiset(b)
    ensures AveragePriorityFeePerGas(a, tier) == AveragePriorityFeePerGas(b, tier)
  {
    if HasTier(a, tier) {
      TierSumPermutation(a, b, tier);
    } else if HasTier(b, tier) {
      TierSumPermutation(b, a, tier);
    }
    assert |a| == |multiset(a)| == |multiset(b)| == |b|;
  }

  /** Bounds on every reward bound the sum. */
  lemma {:induction false} TierSumBounds(feeData: seq<BlockFeeData>, tier: nat, lo: int, hi: int)
    requires HasTier(feeData, tier)
    requires forall i :: 0 <= i < |feeData| ==> lo <= feeData[i].priorityFeePerGas[tier] <= hi
    ensures lo * |feeData| <= TierSum(feeData, tier) <= hi * |feeData|
  {
    if feeData != [] {
      var n := |feeData|;
      TierSumBounds(feeData[..n - 1], tier, lo, hi);
      assert lo * n == lo * (n - 1) + lo;
      assert hi * n == hi * (n - 1) + hi;
    }
  }

  /** The average lies between any lower and upper bound of the rewards averaged. */
  lemma AverageWithinBounds(feeData: seq<BlockFeeData>, tier: nat, lo: int, hi: int)
    requires feeData != [] && HasTier(feeData, tier)
    requires forall i :: 0 <= i < |feeData| ==> lo <= feeData[i].priorityFeePerGas[tier] <= hi
    ensures AveragePriorityFeePerGas(feeData, tier).Ok?
    ensures lo <= AveragePriorityFeePerGas(feeData, tier).value <= hi
  {
    var n := |feeData|;
    var avg := AveragePriorityFeePerGas(feeData, tier).value;
    TierSumBounds(feeData, tier, lo, hi);
    ScaledOrder(avg, hi, n);
    ScaledOrder(lo, avg + 1, n);
  }

  /** With a positive factor, `a * n <= b * n` gives `a <= b` and `a * n < b * n` gives `a < b`. */
  lemma ScaledOrder(a: int, b: int, n: int)
    requires n > 0
    ensures a * n <= b * n ==> a <= b
    ensures a * n < b * n ==> a < b
  {
  }

  /** When every record has the same reward `c` in the tier, the average is exactly `c`. */
  lemma AverageOfUniform(feeData: seq<BlockFeeData>, tier: nat, c: int)
    requires feeData != [] && HasTier(feeData, tier)
    requires forall i :: 0 <= i < |feeData| ==> feeData[i].priorityFeePerGas[tier] == c
    ensures AveragePriorityFeePerGas(feeData, tier) == Ok(c)
  {
    AverageWithinBounds(feeData, tier, c, c);
  }
}
