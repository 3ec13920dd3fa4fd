/**
 Loading the two inputs. Estimates load all-or-nothing: one malformed record
 makes the whole load fail. Blocks load record by record: a malformed record
 is skipped and the others still go into a map keyed by block height, where a
 later record for the same height replaces an earlier one.
 */
module Loader {
  import opened Records

  /**
   Loads the estimate records in order (util.py:34-52). The list
   comprehension raises on the first malformed record, so the result is
   `None` unless every record is well formed.
   */
  function ReadFees(records: seq<RawEstimate>): (r: Option<seq<FeeEstimate>>)
    ensures r.Some? <==> forall i :: 0 <= i < |records| ==> records[i].WellFormed()
    ensures r.Some? ==> |r.value| == |records|
    ensures r.Some? ==> forall i :: 0 <= i < |records| ==> r.value[i] == records[i].ToEstimate()
  {
    if records == [] then Some([])
    else if !records[0].WellFormed() then None
    else
      match ReadFees(records[1..])
      case None => None
      case Some(rest) =>
        Some([records[0].ToEstimate()] + rest)
  }

  /** Record `b` carries block data for height `h`. */
  predicate Defines(b: RawBlock, h: int) {
    b.WellFormed() && b.blockHeight.value == h
  }

  /** The block map after inserting the records one after another, skipping the malformed ones. */
  function BlocksOf(records: seq<RawBlock>): map<int, BlockStat>
    decreases |records|
  {
    if records == [] then map[]
    else
      var before := BlocksOf(records[..|records| - 1]);
      var block := records[|records| - 1];
      if block.WellFormed() then before[block.blockHeight.value := block.ToBlock()] else before
  }

  /** Loads the block records into a height-keyed map (util.py:54-76). */
  method ReadBlocks(blocks: seq<RawBlock>) returns (filteredBlocks: map<int, BlockStat>)
    ensures filteredBlocks == BlocksOf(blocks)
  {
    filteredBlocks := map[];
    for i := 0 to |blocks|
      invariant filteredBlocks == BlocksOf(blocks[..i])
    {
      assert blocks[..i + 1][..i] == blocks[..i];
      var block := blocks[i];
      if block.WellFormed() {
        var height := block.blockHeight.value;
        filteredBlocks := filteredBlocks[height := block.ToBlock()];
      }
    }
    assert blocks[..|blocks|] == blocks;
  }

  /** A height is a key exactly when some well-formed record has that height. */
  lemma {:induction false} BlocksOfKeys(records: seq<RawBlock>, h: int)
    ensures h in BlocksOf(records) <==> exists i :: 0 <= i < |records| && Defines(records[i], h)
    decreases |records|
  {
    if records != [] {
      var n := |records| - 1;
      var init := records[..n];
      BlocksOfKeys(init, h);
      if h in BlocksOf(records) && !Defines(records[n], h) {
        var i :| 0 <= i < |init| && Defines(init[i], h);
        assert records[i] == init[i];
      }
      if exists i :: 0 <= i < |records| && Defines(records[i], h) {
        var i :| 0 <= i < |records| && Defines(records[i], h);
        if i < n {
          assert init[i] == records[i];
        }
      }
    }
  }

  /**
   The last record that defines a height is the one stored for it: later
   records for the same height replace earlier ones.
   */
  lemma {:induction false} BlocksOfLastWins(records: seq<RawBlock>, i: nat, h: int)
    requires i < |records| && Defines(records[i], h)
    requires forall j :: i < j < |records| ==> !Defines(records[j], h)
    ensures h in BlocksOf(records) && BlocksOf(records)[h] == records[i].ToBlock()
    decreases |records|
  {
    var n := |records| - 1;
    if i < n {
      var init := records[..n];
      forall j | i < j < |init| ensures !Defines(init[j], h) {
        assert init[j] == records[j];
      }
      BlocksOfLastWins(init, i, h);
    }
  }

  /** Every stored entry has its own key as `confHeight`. */
  lemma {:induction false} BlocksOfHeights(records: seq<RawBlock>)
    ensures forall h :: h in BlocksOf(records) ==> BlocksOf(records)[h].confHeight == h
    decreases |records|
  {
    if records != [] {
      BlocksOfHeights(records[..|records| - 1]);
    }
  }

  /** A malformed record changes nothing: loading with it equals loading without it. */
  lemma {:induction false} BlocksOfSkipsMalformed(before: seq<RawBlock>, bad: RawBlock, after: seq<RawBlock>)
    requires !bad.WellFormed()
    ensures BlocksOf(before + [bad] + after) == BlocksOf(before + after)
    decreases |after|
  {
    if after == [] {
      assert (before + [bad] + after)[..|before|] == before;
      assert before + after == before;
    } else {
      var n := |after| - 1;
      BlocksOfSkipsMalformed(before, bad, after[..n]);
      assert (before + [bad] + after)[..|before| + 1 + n] == before + [bad] + after[..n];
      assert (before + after)[..|before| + n] == before + after[..n];
    }
  }

  /**
   An example: three well-formed records at distinct heights and one with a
   missing `p_5` load as three entries.
   */
  lemma ReadBlocksExample()
    ensures var m := BlocksOf([
        RawBlock(Some(100), Some(5000), Some(20000)),
        RawBlock(Some(101), None, Some(20000)),
        RawBlock(Some(102), Some(12000), Some(20000)),
        RawBlock(Some(103), Some(1999), Some(8000))]);
      m == map[100 := BlockStat(100, 5, 20), 102 := BlockStat(102, 12, 20), 103 := BlockStat(103, 1, 8)]
  {
    var r0 := RawBlock(Some(100), Some(5000), Some(20000));
    var r1 := RawBlock(Some(101), None, Some(20000));
    var r2 := RawBlock(Some(102), Some(12000), Some(20000));
    var r3 := RawBlock(Some(103), Some(1999), Some(8000));
    assert [r0][..0] == [];
    assert BlocksOf([r0]) == map[100 := BlockStat(100, 5, 20)];
    assert [r0, r1][..1] == [r0];
    assert BlocksOf([r0, r1]) == map[100 := BlockStat(100, 5, 20)];
    assert [r0, r1, r2][..2] == [r0, r1];
    assert BlocksOf([r0, r1, r2]) == map[100 := BlockStat(100, 5, 20), 102 := BlockStat(102, 12, 20)];
    assert [r0, r1, r2, r3][..3] == [r0, r1, r2];
    assert BlocksOf([r0, r1, r2, r3]) == BlocksOf([r0, r1, r2])[103 := BlockStat(103, 1, 8)];
  }
}
