/**
 The records the fee-estimate analysis works on: raw input records as they
 come out of the decoded JSON (each field either a parsed number or missing /
 unparsable), the loaded estimate and block records, and the conversion of a
 fee rate per kilobyte to a fee rate per byte.
 */
module Records {

  datatype Option<+T> = None | Some(value: T)

  datatype Result<+R, +E> = Success(value: R) | Failure(error: E)

  /** Size units per kilobyte: input fee rates are quoted per 1000 bytes. */
  const BytesPerKb: int := 1000

  /**
   Converts satoshis per kilobyte to satoshis per byte. The quotient is cast
   to an integer, which truncates toward zero (util.py:13); Dafny's own `/`
   is Euclidean, so the negative case is written out.
   */
  function SatsPerKbToSatsPerByte(satsPerKb: int): (r: int)
    ensures 0 <= satsPerKb ==> 0 <= r && r * BytesPerKb <= satsPerKb < (r + 1) * BytesPerKb
    ensures satsPerKb < 0 ==> r <= 0 && (r - 1) * BytesPerKb < satsPerKb <= r * BytesPerKb
  {
    if satsPerKb >= 0 then satsPerKb / BytesPerKb else -((-satsPerKb) / BytesPerKb)
  }

  /** A fee estimate made at `blockHeight`, predicting confirmation within `confTarget` blocks. Rates are per byte. */
  datatype FeeEstimate = FeeEstimate(
    confTarget: int,
    blockHeight: int,
    conservativeFeeRate: int,
    economicFeeRate: int)

  /** The 5th and 50th percentile fee rates (per byte) of the transactions confirmed in one block. */
  datatype BlockStat = BlockStat(confHeight: int, p5: int, p50: int)

  /**
   An estimate record as decoded from the input: `None` stands for a field
   that is missing or whose value does not parse as a number.
   */
  datatype RawEstimate = RawEstimate(
    confTarget: Option<int>,
    blockHeight: Option<int>,
    conservativeFeeRate: Option<int>,
    economicFeeRate: Option<int>)
  {
    predicate WellFormed() {
      confTarget.Some? && blockHeight.Some? && conservativeFeeRate.Some? && economicFeeRate.Some?
    }

    /** The field-wise conversion of one estimate record; rates go from per-kB to per-byte. */
    function ToEstimate(): FeeEstimate
      requires WellFormed()
    {
      FeeEstimate(
        confTarget.value,
        blockHeight.value,
        SatsPerKbToSatsPerByte(conservativeFeeRate.value),
        SatsPerKbToSatsPerByte(economicFeeRate.value))
    }
  }

  /** A block record as decoded from the input, with the same convention for malformed fields. */
  datatype RawBlock = RawBlock(blockHeight: Option<int>, p5: Option<int>, p50: Option<int>)
  {
    predicate WellFormed() {
      blockHeight.Some? && p5.Some? && p50.Some?
    }

    /** The block statistics a well-formed record loads as; its height doubles as `confHeight`. */
    function ToBlock(): BlockStat
      requires WellFormed()
    {
      BlockStat(blockHeight.value, SatsPerKbToSatsPerByte(p5.value), SatsPerKbToSatsPerByte(p50.value))
    }
  }

  /** Conversion examples: 5000, 1999, 0 and -1999 satoshis per kB. */
  lemma ConversionExamples()
    ensures SatsPerKbToSatsPerByte(5000) == 5
    ensures SatsPerKbToSatsPerByte(1999) == 1
    ensures SatsPerKbToSatsPerByte(0) == 0
    ensures SatsPerKbToSatsPerByte(-1999) == -1
  {
  }
}
