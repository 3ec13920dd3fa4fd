/**
 The window classifier and aggregator. Each estimate's fee rate is compared,
 in each of the two modes, with the blocks of its confirmation window; the
 estimate then counts as overpaid, within the range or underpaid in the
 bucket of its confirmation target.
 */
module Classifier {
  import opened Records

  /** The two fee-estimation modes, evaluated independently. */
  datatype Mode = Conservative | Economic

  function FeeRate(e: FeeEstimate, mode: Mode): int {
    match mode
    case Conservative => e.conservativeFeeRate
    case Economic => e.economicFeeRate
  }

  /**
   The flags a window scan raises: the rate was below some block's p_5, above
   some block's p_50, or at or below some block's p_50.
   */
  datatype Flags = Flags(underpaid: bool, overpaid: bool, withinRange: bool)

  /** The final classification of one estimate in one mode. */
  datatype Outcome = Underpaid | Overpaid | WithinRange

  /** The counters of one confirmation-target bucket. */
  datatype Counts = Counts(underpaid: nat, overpaid: nat, withinRange: nat)
  {
    function Total(): nat {
      underpaid + overpaid + withinRange
    }
  }

  /** The percentages of one bucket's counters. */
  datatype Shares = Shares(underpaid: real, overpaid: real, withinRange: real)

  /** One bucket of the result: its counters and their percentages. */
  datatype Bucket = Bucket(counts: Counts, shares: Shares)

  /** The flags after one visited block. */
  function Visit(f: Flags, rate: int, block: BlockStat): Flags {
    Flags(f.underpaid || rate < block.p5, f.overpaid || rate > block.p50, f.withinRange || rate <= block.p50)
  }

  /** The flags after scanning heights `lo` up to (not including) `hi`; heights without block data are skipped. */
  function ScanWindow(rate: int, blocks: map<int, BlockStat>, lo: int, hi: int): Flags
    decreases hi - lo
  {
    if hi <= lo then Flags(false, false, false)
    else
      var f := ScanWindow(rate, blocks, lo, hi - 1);
      if hi - 1 in blocks then Visit(f, rate, blocks[hi - 1]) else f
  }

  /** The first height of an estimate's window. */
  function WindowStart(e: FeeEstimate): int {
    e.blockHeight + 1
  }

  /** The first height past an estimate's window. */
  function WindowEnd(e: FeeEstimate): int {
    e.blockHeight + e.confTarget
  }

  /** The flags one estimate raises in one mode. */
  function EstimateFlags(e: FeeEstimate, blocks: map<int, BlockStat>, mode: Mode): Flags {
    ScanWindow(FeeRate(e, mode), blocks, WindowStart(e), WindowEnd(e))
  }

  /** The bucket counter the flags select, overpaid first, then within the range (util.py:118-124). */
  function Verdict(f: Flags): Outcome {
    if f.overpaid then Overpaid
    else if f.withinRange then WithinRange
    else Underpaid
  }

  function Classify(e: FeeEstimate, blocks: map<int, BlockStat>, mode: Mode): Outcome {
    Verdict(EstimateFlags(e, blocks, mode))
  }

  // Independent reference definitions of the three flags.

  ghost predicate SomeBlockBelowP5(rate: int, blocks: map<int, BlockStat>, lo: int, hi: int) {
    exists h :: lo <= h < hi && h in blocks && rate < blocks[h].p5
  }

  ghost predicate SomeBlockBelowRate(rate: int, blocks: map<int, BlockStat>, lo: int, hi: int) {
    exists h :: lo <= h < hi && h in blocks && rate > blocks[h].p50
  }

  ghost predicate SomeBlockAtOrAboveRate(rate: int, blocks: map<int, BlockStat>, lo: int, hi: int) {
    exists h :: lo <= h < hi && h in blocks && rate <= blocks[h].p50
  }

  ghost predicate SomeBlockIn(blocks: map<int, BlockStat>, lo: int, hi: int) {
    exists h :: lo <= h < hi && h in blocks
  }

  /** Each flag of a scan is raised exactly when some present height of the window triggers it. */
  lemma {:induction false} ScanWindowMeaning(rate: int, blocks: map<int, BlockStat>, lo: int, hi: int)
    ensures ScanWindow(rate, blocks, lo, hi).underpaid <==> SomeBlockBelowP5(rate, blocks, lo, hi)
    ensures ScanWindow(rate, blocks, lo, hi).overpaid <==> SomeBlockBelowRate(rate, blocks, lo, hi)
    ensures ScanWindow(rate, blocks, lo, hi).withinRange <==> SomeBlockAtOrAboveRate(rate, blocks, lo, hi)
    decreases hi - lo
  {
    if lo < hi {
      ScanWindowMeaning(rate, blocks, lo, hi - 1);
      if SomeBlockBelowP5(rate, blocks, lo, hi) {
        var h :| lo <= h < hi && h in blocks && rate < blocks[h].p5;
        if h < hi - 1 {
          assert SomeBlockBelowP5(rate, blocks, lo, hi - 1);
        }
      }
      if SomeBlockBelowRate(rate, blocks, lo, hi) {
        var h :| lo <= h < hi && h in blocks && rate > blocks[h].p50;
        if h < hi - 1 {
          assert SomeBlockBelowRate(rate, blocks, lo, hi - 1);
        }
      }
      if SomeBlockAtOrAboveRate(rate, blocks, lo, hi) {
        var h :| lo <= h < hi && h in blocks && rate <= blocks[h].p50;
        if h < hi - 1 {
          assert SomeBlockAtOrAboveRate(rate, blocks, lo, hi - 1);
        }
      }
    }
  }

  /**
   The priority and window rules: overpaid exactly when some present block of
   the window has p_50 below the rate; otherwise within the range exactly when
   the window holds any present block; otherwise (also for an empty window)
   underpaid.
   */
  lemma ClassifyMeaning(e: FeeEstimate, blocks: map<int, BlockStat>, mode: Mode)
    ensures Classify(e, blocks, mode) == Overpaid <==>
      SomeBlockBelowRate(FeeRate(e, mode), blocks, WindowStart(e), WindowEnd(e))
    ensures Classify(e, blocks, mode) == WithinRange <==>
      !SomeBlockBelowRate(FeeRate(e, mode), blocks, WindowStart(e), WindowEnd(e)) &&
      SomeBlockIn(blocks, WindowStart(e), WindowEnd(e))
    ensures Classify(e, blocks, mode) == Underpaid <==> !SomeBlockIn(blocks, WindowStart(e), WindowEnd(e))
  {
    var rate, lo, hi := FeeRate(e, mode), WindowStart(e), WindowEnd(e);
    ScanWindowMeaning(rate, blocks, lo, hi);
    if SomeBlockIn(blocks, lo, hi) {
      var h :| lo <= h < hi && h in blocks;
      if rate <= blocks[h].p50 {
        assert SomeBlockAtOrAboveRate(rate, blocks, lo, hi);
      } else {
        assert SomeBlockBelowRate(rate, blocks, lo, hi);
      }
    }
  }

  /**
   The p_5 comparison never changes an outcome: blocks that differ only in
   their p_5 values classify every estimate alike.
   */
  lemma ClassifyIgnoresP5(e: FeeEstimate, blocks: map<int, BlockStat>, other: map<int, BlockStat>, mode: Mode)
    requires blocks.Keys == other.Keys
    requires forall h :: h in blocks ==> blocks[h].p50 == other[h].p50
    ensures Classify(e, blocks, mode) == Classify(e, other, mode)
  {
    ClassifyMeaning(e, blocks, mode);
    ClassifyMeaning(e, other, mode);
    var rate, lo, hi := FeeRate(e, mode), WindowStart(e), WindowEnd(e);
    if SomeBlockBelowRate(rate, blocks, lo, hi) {
      var h :| lo <= h < hi && h in blocks && rate > blocks[h].p50;
      assert h in other && rate > other[h].p50;
    }
    if SomeBlockBelowRate(rate, other, lo, hi) {
      var h :| lo <= h < hi && h in other && rate > other[h].p50;
      assert h in blocks && rate > blocks[h].p50;
    }
    if SomeBlockIn(blocks, lo, hi) {
      var h :| lo <= h < hi && h in blocks;
      assert h in other;
    }
    if SomeBlockIn(other, lo, hi) {
      var h :| lo <= h < hi && h in other;
      assert h in blocks;
    }
  }

  /** The all-zero counters a bucket starts with (util.py:115-116). */
  function InitializeResults(): Counts {
    Counts(0, 0, 0)
  }

  /**
   Increments exactly one counter of the bucket `target`, chosen by the
   flags' priority, and leaves every other bucket alone (util.py:118-124).
   */
  function UpdateResults(res: Flags, target: int, results: map<int, Counts>): (r: map<int, Counts>)
    requires target in results
    ensures r.Keys == results.Keys
    ensures forall k :: k in results && k != target ==> r[k] == results[k]
    ensures r[target].Total() == results[target].Total() + 1
    ensures Verdict(res) == Overpaid ==> r[target] == results[target].(overpaid := results[target].overpaid + 1)
    ensures Verdict(res) == WithinRange ==> r[target] == results[target].(withinRange := results[target].withinRange + 1)
    ensures Verdict(res) == Underpaid ==> r[target] == results[target].(underpaid := results[target].underpaid + 1)
  {
    var counts := results[target];
    if res.overpaid then results[target := counts.(overpaid := counts.overpaid + 1)]
    else if res.withinRange then results[target := counts.(withinRange := counts.withinRange + 1)]
    else results[target := counts.(underpaid := counts.underpaid + 1)]
  }

  /** Opens a bucket with zero counts for a target not seen before (util.py:134-137). */
  function OpenBucket(results: map<int, Counts>, target: int): (r: map<int, Counts>)
    ensures r.Keys == results.Keys + {target}
    ensures target in results ==> r == results
    ensures target !in results ==> r[target] == Counts(0, 0, 0)
    ensures forall k :: k in results ==> r[k] == results[k]
  {
    if target in results then results else results[target := InitializeResults()]
  }

  /**
   The counters after processing the estimates in order in one mode: a bucket
   is opened with zero counts for a new confirmation target, then updated.
   */
  function Tally(estimates: seq<FeeEstimate>, blocks: map<int, BlockStat>, mode: Mode): map<int, Counts>
    decreases |estimates|
  {
    if estimates == [] then map[]
    else
      var results := Tally(estimates[..|estimates| - 1], blocks, mode);
      var e := estimates[|estimates| - 1];
      UpdateResults(EstimateFlags(e, blocks, mode), e.confTarget, OpenBucket(results, e.confTarget))
  }

  /** One step of the tally: the next estimate's bucket is opened if new, then updated. */
  lemma TallyStep(estimates: seq<FeeEstimate>, i: nat, blocks: map<int, BlockStat>, mode: Mode)
    requires i < |estimates|
    ensures Tally(estimates[..i + 1], blocks, mode) ==
      UpdateResults(EstimateFlags(estimates[i], blocks, mode), estimates[i].confTarget,
        OpenBucket(Tally(estimates[..i], blocks, mode), estimates[i].confTarget))
  {
    assert estimates[..i + 1][..i] == estimates[..i];
  }

  /** Reference count: the estimates with confirmation target `target` that classify as `outcome`. */
  function CountOf(estimates: seq<FeeEstimate>, blocks: map<int, BlockStat>, mode: Mode, target: int, outcome: Outcome): nat
    decreases |estimates|
  {
    if estimates == [] then 0
    else
      var e := estimates[|estimates| - 1];
      CountOf(estimates[..|estimates| - 1], blocks, mode, target, outcome)
        + (if e.confTarget == target && Classify(e, blocks, mode) == outcome then 1 else 0)
  }

  /** The buckets are exactly the confirmation targets that occur among the estimates. */
  lemma {:induction false} TallyKeys(estimates: seq<FeeEstimate>, blocks: map<int, BlockStat>, mode: Mode, target: int)
    ensures target in Tally(estimates, blocks, mode) <==>
      exists i :: 0 <= i < |estimates| && estimates[i].confTarget == target
    decreases |estimates|
  {
    if estimates != [] {
      var n := |estimates| - 1;
      var init := estimates[..n];
      TallyKeys(init, blocks, mode, target);
      if target in Tally(estimates, blocks, mode) && estimates[n].confTarget != target {
        var i :| 0 <= i < |init| && init[i].confTarget == target;
        assert estimates[i] == init[i];
      }
      if exists i :: 0 <= i < |estimates| && estimates[i].confTarget == target {
        var i :| 0 <= i < |estimates| && estimates[i].confTarget == target;
        if i < n {
          assert init[i] == estimates[i];
        }
      }
    }
  }

  /** Each bucket's counters equal the reference counts of its estimates by outcome. */
  lemma {:induction false} TallyCounts(estimates: seq<FeeEstimate>, blocks: map<int, BlockStat>, mode: Mode, target: int)
    requires target in Tally(estimates, blocks, mode)
    ensures Tally(estimates, blocks, mode)[target] == Counts(
      CountOf(estimates, blocks, mode, target, Underpaid),
      CountOf(estimates, blocks, mode, target, Overpaid),
      CountOf(estimates, blocks, mode, target, WithinRange))
    decreases |estimates|
  {
    var n := |estimates| - 1;
    var init := estimates[..n];
    var e := estimates[n];
    if target in Tally(init, blocks, mode) {
      TallyCounts(init, blocks, mode, target);
    } else {
      forall o: Outcome ensures CountOf(init, blocks, mode, target, o) == 0 {
        CountOfAbsent(init, blocks, mode, target, o);
      }
    }
  }

  /** A target that has no bucket counts nothing. */
  lemma {:induction false} CountOfAbsent(estimates: seq<FeeEstimate>, blocks: map<int, BlockStat>, mode: Mode, target: int, outcome: Outcome)
    requires target !in Tally(estimates, blocks, mode)
    ensures CountOf(estimates, blocks, mode, target, outcome) == 0
    decreases |estimates|
  {
    if estimates != [] {
      var n := |estimates| - 1;
      TallyKeys(estimates, blocks, mode, target);
      TallyKeys(estimates[..n], blocks, mode, target);
      CountOfAbsent(estimates[..n], blocks, mode, target, outcome);
    }
  }

  /** The sum of all counters over all buckets. */
  ghost function SumTotals(results: map<int, Counts>): nat
    decreases |results|
  {
    if exists k :: k in results then
      var k :| k in results;
      assert |results - {k}| == |results| - 1;
      results[k].Total() + SumTotals(results - {k})
    else 0
  }

  /** The sum does not depend on which bucket is taken out first. */
  lemma {:induction false} SumTotalsRemove(results: map<int, Counts>, k: int)
    requires k in results
    ensures SumTotals(results) == results[k].Total() + SumTotals(results - {k})
    decreases |results|
  {
    var j :| j in results && SumTotals(results) == results[j].Total() + SumTotals(results - {j});
    if j != k {
      assert |results - {j}| == |results| - 1;
      assert |results - {k}| == |results| - 1;
      SumTotalsRemove(results - {j}, k);
      SumTotalsRemove(results - {k}, j);
      assert results - {j} - {k} == results - {k} - {j};
    }
  }

  /** Replacing one bucket changes the sum by the difference of the two buckets' totals. */
  lemma SumTotalsReplace(results: map<int, Counts>, k: int, c: Counts)
    requires k in results
    ensures SumTotals(results[k := c]) + results[k].Total() == SumTotals(results) + c.Total()
  {
    SumTotalsRemove(results[k := c], k);
    SumTotalsRemove(results, k);
    assert results[k := c] - {k} == results - {k};
  }

  /** Adding a new bucket adds its total to the sum. */
  lemma SumTotalsAdd(results: map<int, Counts>, k: int, c: Counts)
    requires k !in results
    ensures SumTotals(results[k := c]) == SumTotals(results) + c.Total()
  {
    SumTotalsRemove(results[k := c], k);
    assert results[k := c] - {k} == results;
  }

  /** Count conservation: per mode, the counters of all buckets add up to the number of estimates. */
  lemma {:induction false} TallyConserves(estimates: seq<FeeEstimate>, blocks: map<int, BlockStat>, mode: Mode)
    ensures SumTotals(Tally(estimates, blocks, mode)) == |estimates|
    decreases |estimates|
  {
    if estimates != [] {
      var n := |estimates| - 1;
      var results := Tally(estimates[..n], blocks, mode);
      var target := estimates[n].confTarget;
      var withBucket := OpenBucket(results, target);
      TallyConserves(estimates[..n], blocks, mode);
      var r := UpdateResults(EstimateFlags(estimates[n], blocks, mode), target, withBucket);
      assert r == withBucket[target := r[target]];
      SumTotalsReplace(withBucket, target, r[target]);
      if target !in results {
        SumTotalsAdd(results, target, InitializeResults());
      }
    }
  }

  /** The fixed normaliser of the percentages: the estimate count is divided by 12 (util.py:162). */
  const NormalisationDivisor: int := 12

  /**
   A counter as a percentage of `estimateCount / 12`; this can exceed 100,
   since the divisor is fixed rather than the bucket's own count.
   */
  function Percentage(count: nat, estimateCount: nat): (p: real)
    requires estimateCount > 0
    ensures p * (estimateCount as real) == 1200.0 * (count as real)
  {
    (count as real / (estimateCount as real / NormalisationDivisor as real)) * 100.0
  }

  function SharesOf(counts: Counts, estimateCount: nat): Shares
    requires estimateCount > 0
  {
    Shares(
      Percentage(counts.underpaid, estimateCount),
      Percentage(counts.overpaid, estimateCount),
      Percentage(counts.withinRange, estimateCount))
  }

  /** `report` holds exactly the buckets of `results`, each with its counters and their percentages. */
  predicate IsReport(report: map<int, Bucket>, results: map<int, Counts>, estimateCount: nat) {
    && report.Keys == results.Keys
    && forall k :: k in report ==>
         estimateCount > 0 && report[k] == Bucket(results[k], SharesOf(results[k], estimateCount))
  }

  /** Adds the percentages to every bucket (util.py:164-167). */
  method CalculatePercentage(results: map<int, Counts>, estimateCount: nat) returns (report: map<int, Bucket>)
    requires results != map[] ==> estimateCount > 0
    ensures IsReport(report, results, estimateCount)
  {
    report := map[];
    var pending := results.Keys;
    while exists t :: t in pending
      invariant pending <= results.Keys
      invariant report.Keys == results.Keys - pending
      invariant forall k :: k in report ==>
        estimateCount > 0 && report[k] == Bucket(results[k], SharesOf(results[k], estimateCount))
      decreases pending
    {
      var target :| target in pending;
      var counts := results[target];
      report := report[target := Bucket(counts, SharesOf(counts, estimateCount))];
      pending := pending - {target};
    }
  }

  /** The flags held in a three-slot flag array: underpaid, overpaid, within the range. */
  function AsFlags(res: array<bool>): Flags
    requires res.Length == 3
    reads res
  {
    Flags(res[0], res[1], res[2])
  }

  /**
   Scans one estimate's window, raising the flags of both modes in the
   flag arrays (util.py:127-157).
   */
  method ScanEstimate(estimate: FeeEstimate, blocks: map<int, BlockStat>) returns (consFlags: Flags, econsFlags: Flags)
    ensures consFlags == EstimateFlags(estimate, blocks, Conservative)
    ensures econsFlags == EstimateFlags(estimate, blocks, Economic)
  {
    var consRes := new bool[3](_ => false);  // underpaid, overpaid, within the range
    var econsRes := new bool[3](_ => false);
    var currHeight := estimate.blockHeight;
    var confTarget := estimate.confTarget;
    var maxHeight := currHeight + confTarget;
    currHeight := currHeight + 1;

    while currHeight < maxHeight
      invariant WindowStart(estimate) <= currHeight
      invariant currHeight <= maxHeight || currHeight == WindowStart(estimate)
      invariant AsFlags(consRes) == ScanWindow(estimate.conservativeFeeRate, blocks, WindowStart(estimate), currHeight)
      invariant AsFlags(econsRes) == ScanWindow(estimate.economicFeeRate, blocks, WindowStart(estimate), currHeight)
      decreases maxHeight - currHeight
    {
      if currHeight !in blocks {
        currHeight := currHeight + 1;
        continue;
      }
      var block := blocks[currHeight];
      if estimate.conservativeFeeRate < block.p5 {
        consRes[0] := true;
      }
      if estimate.conservativeFeeRate > block.p50 {
        consRes[1] := true;
      } else {
        consRes[2] := true;
      }

      if estimate.economicFeeRate < block.p5 {
        econsRes[0] := true;
      }
      if estimate.economicFeeRate > block.p50 {
        econsRes[1] := true;
      } else {
        econsRes[2] := true;
      }
      currHeight := currHeight + 1;
    }
    consFlags, econsFlags := AsFlags(consRes), AsFlags(econsRes);
  }

  /**
   Classifies every estimate in both modes, counts the outcomes per
   confirmation target and adds the percentages (util.py:101-172).
   */
  method CalculatePercentages(estimates: seq<FeeEstimate>, blocks: map<int, BlockStat>)
    returns (consResult: map<int, Bucket>, econsResult: map<int, Bucket>)
    ensures IsReport(consResult, Tally(estimates, blocks, Conservative), |estimates|)
    ensures IsReport(econsResult, Tally(estimates, blocks, Economic), |estimates|)
  {
    var consCounts: map<int, Counts> := map[];
    var econsCounts: map<int, Counts> := map[];
    for i := 0 to |estimates|
      invariant consCounts == Tally(estimates[..i], blocks, Conservative)
      invariant econsCounts == Tally(estimates[..i], blocks, Economic)
    {
      var estimate := estimates[i];
      var confTarget := estimate.confTarget;
      if confTarget !in consCounts {
        consCounts := consCounts[confTarget := InitializeResults()];
      }
      if confTarget !in econsCounts {
        econsCounts := econsCounts[confTarget := InitializeResults()];
      }
      var consRes, econsRes := ScanEstimate(estimate, blocks);
      TallyStep(estimates, i, blocks, Conservative);
      TallyStep(estimates, i, blocks, Economic);
      consCounts := UpdateResults(consRes, confTarget, consCounts);
      econsCounts := UpdateResults(econsRes, confTarget, econsCounts);
    }
    assert estimates[..|estimates|] == estimates;
    consResult := CalculatePercentage(consCounts, |estimates|);
    econsResult := CalculatePercentage(econsCounts, |estimates|);
  }

  /**
   An example: a conservative rate of 10 with a
   two-block target at height 100 sees only block 101 (p_5 5, p_50 20) and
   lands within the range; block 102 lies past the window.
   */
  lemma ClassifyExample()
    ensures var e := FeeEstimate(2, 100, 10, 10);
      var blocks := map[101 := BlockStat(101, 5, 20), 102 := BlockStat(102, 12, 20)];
      Classify(e, blocks, Conservative) == WithinRange
  {
  }
}
