/**
 The summary: the newest block height bounds the trimming, the kept
 estimates are classified, and the report carries the estimate count, the
 judged block range and the per-mode buckets.
 */
module Summary {
  import opened Records
  import opened Trimmer
  import opened Classifier

  /** The largest height in a non-empty set of heights. */
  ghost function MaxOf(heights: set<int>): (top: int)
    requires exists h :: h in heights
    ensures top in heights
    ensures forall h :: h in heights ==> h <= top
    decreases heights
  {
    var h :| h in heights;
    if exists g :: g in heights && g != h then
      var g :| g in heights && g != h;
      assert g in heights - {h};
      var rest := MaxOf(heights - {h});
      assert forall k :: k in heights ==> k == h || k in heights - {h};
      if h < rest then rest else h
    else
      assert forall g :: g in heights ==> g == h;
      h
  }

  /** The largest key of the block map, as `max(list(block_data.keys()))` computes it (util.py:199). */
  method MaxKey(blocks: map<int, BlockStat>) returns (top: int)
    requires exists h :: h in blocks
    ensures top in blocks
    ensures forall h :: h in blocks ==> h <= top
  {
    var rest := blocks.Keys;
    top :| top in rest;
    rest := rest - {top};
    while exists h :: h in rest
      invariant rest <= blocks.Keys
      invariant top in blocks
      invariant forall h :: h in blocks && h !in rest ==> h <= top
      decreases rest
    {
      var h :| h in rest;
      if h > top {
        top := h;
      }
      rest := rest - {h};
    }
  }

  /** Why a summary cannot be produced: the source raises on these inputs. */
  datatype SummaryError =
    | EmptyBlockData    // the maximum of no block heights
    | NoEstimatesLeft   // the first and last of no estimates

  /**
   What the summary reports: the number of estimates judged, the first and
   last block judged (each one below the estimate's stored height), and the
   buckets of both modes.
   */
  datatype Report = Report(
    total: nat,
    startBlock: int,
    endBlock: int,
    conservative: map<int, Bucket>,
    economic: map<int, Bucket>)

  /** Trims the estimates against the newest block and classifies what is left (util.py:190-211). */
  method GetSummary(estimates: seq<FeeEstimate>, blocks: map<int, BlockStat>) returns (r: Result<Report, SummaryError>)
    ensures (forall h :: h !in blocks) ==> r == Failure(EmptyBlockData)
    ensures (exists h :: h in blocks) ==>
      var kept := Trimmed(estimates, MaxOf(blocks.Keys));
      && (kept == [] ==> r == Failure(NoEstimatesLeft))
      && (kept != [] ==>
            && r.Success?
            && r.value.total == |kept|
            && r.value.startBlock == kept[0].blockHeight - 1
            && r.value.endBlock == kept[|kept| - 1].blockHeight - 1
            && IsReport(r.value.conservative, Tally(kept, blocks, Conservative), |kept|)
            && IsReport(r.value.economic, Tally(kept, blocks, Economic), |kept|))
  {
    if !exists h :: h in blocks {
      return Failure(EmptyBlockData);
    }
    var maximumBlockHeight := MaxKey(blocks);
    assert maximumBlockHeight == MaxOf(blocks.Keys);
    var list := new EstimateList(estimates);
    list := SanityCheckData(list, maximumBlockHeight);
    var estimatesData := list.items;
    if estimatesData == [] {
      return Failure(NoEstimatesLeft);
    }
    var total := |estimatesData|;
    var startBlock := estimatesData[0].blockHeight - 1;
    var endBlock := estimatesData[|estimatesData| - 1].blockHeight - 1;
    var consResult, econsResult := CalculatePercentages(estimatesData, blocks);
    r := Success(Report(total, startBlock, endBlock, consResult, econsResult));
  }
}
