# Long-term fee-estimate accuracy analysis, modelled in Dafny

This project models the analytic pipeline of a tool that checks how accurate past
Bitcoin fee estimates were. Each estimate was made at a block height and predicts a
fee rate that should confirm within a target number of blocks. The pipeline loads the
estimates and the per-block fee-rate percentiles (p_5, p_50), and converts rates from
satoshis per kB to satoshis per byte. It then drops the estimates whose window cannot
be judged yet. Finally it classifies every remaining estimate, in the conservative and
the economic mode, as overpaid, within the range or underpaid, counting per
confirmation-target bucket.

Modules, one per component of `util.py`:

- `Records` (records.dfy): `Option`/`Result` types, the raw input records (`None` stands
  for a missing or unparsable field), the loaded `FeeEstimate` and `BlockStat`, and the
  unit conversion.
- `Loader` (loader.dfy): `ReadFees`, a pure function that succeeds only if every record
  is well formed. `ReadBlocks`, a loop filling a height-keyed map, specified by `BlocksOf`.
- `Trimmer` (trimmer.dfy): the estimate list as a class with a `seq` field.
  `SanityCheckData` pops it in place. `Trimmed` is its specification.
- `Classifier` (classifier.dfy): the window scan over three-slot flag arrays
  (`ScanEstimate`), the priority rule (`Verdict`) and the bucket updates (`UpdateResults`,
  `OpenBucket`). Also the counting loop (`CalculatePercentages`), specified by the fold `Tally`,
  and the percentage pass.
- `Summary` (summary.dfy): the maximum block key, and `GetSummary`, which composes trimming
  and classification.

Two behaviours of the code worth stating on their own:

- The conversion `int(float(x) / 1000)` truncates toward zero, so a negative rate rounds
  up, not down (`ConversionExamples`: -1999 becomes -1).
- A malformed block record among three well-formed records at distinct heights leaves
  three entries (`ReadBlocksExample`).

## Model

| member | source | states |
|---|---|---|
| `Records.SatsPerKbToSatsPerByte` | util.py:3-13 | the result is the quotient by 1000 truncated toward zero: for x >= 0, 1000*r <= x < 1000*(r+1); for x < 0, the mirror image |
| `Records.ConversionExamples` | util.py:13 | 5000 -> 5, 1999 -> 1, 0 -> 0, and -1999 -> -1 |
| `Loader.ReadFees` | util.py:34-52 | succeeds iff every record has all four fields; on success the output has the input's length and order, with each element the field-wise conversion of its record |
| `Loader.ReadBlocks` | util.py:54-76 | the map built by the loop equals `BlocksOf`, which inserts the well-formed records in order and skips the malformed ones |
| `Loader.BlocksOfKeys` | util.py:64-76 | a height is a key iff some well-formed record has that height |
| `Loader.BlocksOfLastWins` | util.py:65-73 | for a duplicate height the last well-formed record with that height is stored |
| `Loader.BlocksOfHeights` | util.py:67-73 | every entry's `confHeight` equals its key |
| `Loader.BlocksOfSkipsMalformed` | util.py:66-75 | inserting a malformed record anywhere leaves the loaded map unchanged |
| `Loader.ReadBlocksExample` | util.py:64-76 | three good records and one missing `p_5` load as exactly three entries, each with its converted p_5 and p_50: 100 -> (5, 20), 102 -> (12, 20), 103 -> (1, 8) |
| `Trimmer.SanityCheckData` | util.py:95-99 | pops the list in place, returns the same list, and its new contents are `Trimmed` of the old contents |
| `Trimmer.TrimmedShape` | util.py:95-99 | what is kept is a prefix of the input with unchanged elements; it is empty or ends at a height <= max - 1008; every removed estimate lies above max - 1008 |
| `Trimmer.TrimmedSortedAllJudgeable` | util.py:96-98 | with non-decreasing heights, every kept estimate lies at or below max - 1008 |
| `Trimmer.TrimmedIdempotent` | util.py:96-98 | trimming twice equals trimming once |
| `Trimmer.TrimmedExample` | util.py:96-98 | against max 2000, an estimate at 992 stays and one at 993 is removed |
| `Classifier.ScanEstimate` | util.py:127-157 | the flags the scan loop writes into the two flag arrays equal the window scan `EstimateFlags` of each mode |
| `Classifier.ScanWindowMeaning` | util.py:139-157 | each flag is raised iff some height of [lo, hi) present in the block map triggers it (< p_5, > p_50, <= p_50) |
| `Classifier.ClassifyMeaning` | util.py:118-157 | overpaid iff some present height of [h+1, h+conf_target) has p_50 below the rate; else within the range iff the window has any present height; else underpaid, also for an empty window |
| `Classifier.ClassifyIgnoresP5` | util.py:144-152 | blocks that differ only in p_5 classify every estimate the same way, so the underpaid flag never changes the outcome |
| `Classifier.OpenBucket` | util.py:115-137 | a bucket is added with the all-zero counts of `InitializeResults` iff the target is new; existing buckets are untouched |
| `Classifier.UpdateResults` | util.py:118-124 | exactly one counter of exactly one bucket grows by one, chosen overpaid first, then within the range, then underpaid; nothing else changes |
| `Classifier.TallyKeys` | util.py:126-137 | the bucket keys are exactly the `conf_target` values among the estimates |
| `Classifier.TallyCounts` | util.py:115-160 | each counter of a bucket equals the number of estimates with that target classified with that outcome |
| `Classifier.TallyConserves` | util.py:118-160 | per mode, the counters of all buckets add up to the number of estimates |
| `Classifier.Percentage` | util.py:162-167 | a count's percentage times the estimate count is 1200 times the count, the fixed `len(estimates)/12` normaliser |
| `Classifier.CalculatePercentage` | util.py:164-170 | every bucket keeps its counts and gains their three percentages; no bucket is added or lost |
| `Classifier.CalculatePercentages` | util.py:101-172 | both result maps are the tallies of their mode with percentages against the estimate count |
| `Classifier.ClassifyExample` | util.py:139-157 | rate 10, target 2 at height 100, block 101 with p_5 5 and p_50 20: within the range |
| `Summary.MaxOf` | util.py:199 | the result is a member of the height set and no member exceeds it |
| `Summary.MaxKey` | util.py:199 | the loop returns a key of the block map that no key exceeds |
| `Summary.GetSummary` | util.py:190-211 | with no blocks it fails; otherwise it trims against the largest height; with nothing left it fails; else it reports the count, the kept first and last heights minus one, and both modes' buckets of the kept estimates |

## Left out

- `read_and_process_file` and `read_data_from_file` (util.py:15-32, 80-93): opening files,
  JSON decoding and the fallback to an empty list on `IOError`/`ValueError` are I/O. The
  model starts from decoded records. This also leaves out that a missing key in an
  estimate record raises a `KeyError`, which that fallback does not catch.
- `main.py`: it only passes two fixed file names to these functions.
- Number parsing: inputs are already-parsed integers, or `None` when a field is missing or
  does not parse. These are not modelled: non-integral numeric strings, the precision of
  the intermediate float, and a JSON `null` field, which raises an uncaught `TypeError`
  rather than counting as malformed.
- `Classifier.Percentage`: exact real arithmetic, not IEEE double division; rounding is
  not modelled.
- `print_summary` and the prints in `get_summary` (util.py:174-188, 202-207): text output.
  This includes the insertion order in which the buckets are printed; the model's maps
  are unordered. `Summary.Report` holds the values that are printed.
- `Summary.GetSummary`: the source crashes on an empty block map and on an empty trimmed
  list. The model returns `Failure` for both instead. The caller's list is wrapped in a
  fresh `EstimateList`, so the caller's own reference to the list it passed in, which the
  source also mutates, is not modelled.
