/**
 The range trimmer: estimates whose window may reach past the last block
 with known outcomes are popped off the tail of the estimate list, in place.
 */
module Trimmer {
  import opened Records

  /** How far (in blocks) behind the newest known block an estimate must lie to be judged. */
  const JudgingWindow: int := 1008

  /** An estimate old enough to be judged against blocks up to `maximumBlockHeight`. */
  predicate Judgeable(e: FeeEstimate, maximumBlockHeight: int) {
    e.blockHeight <= maximumBlockHeight - JudgingWindow
  }

  /** The list left after popping the tail while its last estimate is too recent. */
  function Trimmed(estimates: seq<FeeEstimate>, maximumBlockHeight: int): seq<FeeEstimate>
    decreases |estimates|
  {
    if estimates != [] && !Judgeable(estimates[|estimates| - 1], maximumBlockHeight)
    then Trimmed(estimates[..|estimates| - 1], maximumBlockHeight)
    else estimates
  }

  /** The estimate list the trimmer mutates. */
  class EstimateList {
    var items: seq<FeeEstimate>

    constructor (initial: seq<FeeEstimate>)
      ensures items == initial
    {
      items := initial;
    }
  }

  /**
   Pops estimates off the end of the list while the last one lies less than
   `JudgingWindow` blocks behind `maximumBlockHeight` (util.py:95-99), and
   returns the same list.
   */
  method SanityCheckData(estimates: EstimateList, maximumBlockHeight: int) returns (result: EstimateList)
    modifies estimates
    ensures result == estimates
    ensures estimates.items == Trimmed(old(estimates.items), maximumBlockHeight)
  {
    var minimum := maximumBlockHeight - JudgingWindow;
    while |estimates.items| > 0 && minimum < estimates.items[|estimates.items| - 1].blockHeight
      invariant Trimmed(estimates.items, maximumBlockHeight) == Trimmed(old(estimates.items), maximumBlockHeight)
      decreases |estimates.items|
    {
      estimates.items := estimates.items[..|estimates.items| - 1];
    }
    result := estimates;
  }

  /**
   What is kept is a prefix of the input, made of the same elements; it is
   empty or ends in a judgeable estimate; and every estimate removed was too
   recent to judge.
   */
  lemma {:induction false} TrimmedShape(estimates: seq<FeeEstimate>, maximumBlockHeight: int)
    ensures var kept := Trimmed(estimates, maximumBlockHeight);
      && |kept| <= |estimates|
      && kept == estimates[..|kept|]
      && (kept == [] || Judgeable(kept[|kept| - 1], maximumBlockHeight))
      && forall i :: |kept| <= i < |estimates| ==> !Judgeable(estimates[i], maximumBlockHeight)
    decreases |estimates|
  {
    if estimates != [] && !Judgeable(estimates[|estimates| - 1], maximumBlockHeight) {
      var init := estimates[..|estimates| - 1];
      TrimmedShape(init, maximumBlockHeight);
      var kept := Trimmed(init, maximumBlockHeight);
      assert kept == estimates[..|kept|];
      forall i | |kept| <= i < |estimates| ensures !Judgeable(estimates[i], maximumBlockHeight) {
        if i < |init| {
          assert init[i] == estimates[i];
        }
      }
    }
  }

  /** Block heights that never decrease along the list. */
  predicate HeightsSorted(estimates: seq<FeeEstimate>) {
    forall i, j :: 0 <= i <= j < |estimates| ==> estimates[i].blockHeight <= estimates[j].blockHeight
  }

  /**
   The trimmer only looks at the tail, so every kept estimate is judgeable
   when the block heights are non-decreasing.
   */
  lemma {:induction false} TrimmedSortedAllJudgeable(estimates: seq<FeeEstimate>, maximumBlockHeight: int)
    requires HeightsSorted(estimates)
    ensures forall i :: 0 <= i < |Trimmed(estimates, maximumBlockHeight)| ==>
      Judgeable(Trimmed(estimates, maximumBlockHeight)[i], maximumBlockHeight)
  {
    TrimmedShape(estimates, maximumBlockHeight);
    var kept := Trimmed(estimates, maximumBlockHeight);
    forall i | 0 <= i < |kept| ensures Judgeable(kept[i], maximumBlockHeight) {
      assert kept[i] == estimates[i] && kept[|kept| - 1] == estimates[|kept| - 1];
    }
  }

  /** Trimming twice is the same as trimming once. */
  lemma {:induction false} TrimmedIdempotent(estimates: seq<FeeEstimate>, maximumBlockHeight: int)
    ensures Trimmed(Trimmed(estimates, maximumBlockHeight), maximumBlockHeight) == Trimmed(estimates, maximumBlockHeight)
  {
    TrimmedShape(estimates, maximumBlockHeight);
  }

  /** An example: against a newest block at 2000, an estimate at 992 stays and one at 993 goes. */
  lemma TrimmedExample()
    ensures var early := FeeEstimate(6, 992, 10, 10);
      var late := FeeEstimate(6, 993, 10, 10);
      Trimmed([early, late], 2000) == [early]
  {
    var early := FeeEstimate(6, 992, 10, 10);
    var late := FeeEstimate(6, 993, 10, 10);
    assert [early, late][..1] == [early];
  }
}
