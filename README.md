# IOP estimator: a verified model of the numeric core

The estimator turns a handful of rebound-tonometer readings (intraocular
pressure, IOP, in mmHg) into estimates of the real pressure. It has five parts.

- **Validation.** The raw comma-separated text is validated: blank input, a token that is not a number, input with only separators, a value outside [0, 100] and fewer than three values are each refused, in that order.
- **Eight point estimators.** These are:
  - the trimmed mean ("safe" IOP);
  - the median ("possible");
  - the range midpoint ("clinical");
  - the mean;
  - Tukey's trimean with linear-interpolation quartiles;
  - the interquartile mean;
  - the one-point Winsorized mean;
  - a mean weighted by closeness to the median.
- **Dispersion statistics.** These are the range, the spread (max - min) and the Bessel-corrected variance.
- **Clinical interpretation.** A first-match scan over seven half-open pressure bands gives the category. The spread gives a confidence tier. A substring test on the label gives a status colour.
- **The calculator class.** It refuses fewer than three readings, stores a sorted copy and bundles every result in one record.

The model is written over exact `real` values. Each estimator is a function, proved to:

- lie between the minimum and the maximum;
- map a constant sample to its value;
- depend only on the multiset of readings;
- have the closed form the code promises at n = 3 and n = 4.

numpy's sort, median and percentile are defined mathematically in `Samples`. Sorting is insertion into an ascending sequence. An ascending sequence is proved to be determined by its multiset. The permutation lemmas of the sorted estimators rest on that fact. The minimum, the maximum and the midrange rest instead on their bounds and on both being readings, which fixes them by the multiset.

The Winsorized estimator keeps the source's in-place form. An array copy has both ends overwritten, and a frame condition covers the other cells.

The calculator is a class that stores the sorted readings and their count. Its getters are proved to equal each estimator applied to the readings as given.

The modules follow the source files. `Wrappers` holds `Option`/`Result`, and `Samples` holds the numpy stand-ins. `Examples` works the readings 12, 12, 13, 14, 15, in any order, through every estimator. It also takes raw inputs of two and three readings through the validator.

Validation returns the values in input order, which is what the code does. The calculator's constructor sorts a copy (src/iop_calculator.py:58), and so does the model's. The interquartile and Winsorized estimators sort their input again (src/iqm_iop.py:37, src/winsorized_iop.py:41), and their models sort too.

## Model

| member | source | states |
|---|---|---|
| Config.ClinicalRangesContiguous | src/config.py:33-41 | seven bands in table order, each with lo < hi, each ending where the next begins, from 0 (the minimum accepted reading) up to 100 (the maximum) |
| Config.ClinicalRangesDisjoint | src/config.py:33-41 | a value inside one band lies in no later band, so the bands do not overlap |
| Config.BoundsAscend | src/config.py:33-41 | for bands i < j, band i ends no later than band j begins |
| Config.EveryRangeLabelled | src/config.py:33-52 | every band key has a label, the label table has exactly the band keys, and the keys are distinct |
| Config.LabelsInOrder | src/config.py:44-52 | the labels of the seven bands, in table order |
| Config.ThresholdsAndLimits | src/config.py:55-64 | the thresholds are 0 < 2 < 4 < 6; the limits are 0 and 100; at least 3 readings are required |
| Interpretation.InterpretIop | src/interpretation.py:13-27 | the label of the first band containing the value, with "Severely Elevated" as the fallback; InterpretIopInRange, InterpretIopOutside, InterpretIopBands and InterpretIopIsLabel give its label for every value |
| Interpretation.FirstMatch | src/interpretation.py:23-25 | returns the first band, in table order, containing the value; None exactly when no band contains it |
| Interpretation.InterpretIopInRange | src/interpretation.py:23-25 | a value in band i gets band i's label |
| Interpretation.InterpretIopOutside | src/interpretation.py:23-27 | a negative value or one at or above 100 reaches the fallback "Severely Elevated" |
| Interpretation.InterpretIopBands | src/interpretation.py:23-27 | the label of each of the seven bands; every value of 30 or more, and every negative value, is "Severely Elevated" |
| Interpretation.InterpretIopIsLabel | src/interpretation.py:23-27 | every value gets one of the seven labels |
| Interpretation.BandIndex | src/config.py:33-41 | every value in [0, 100) lies in some band |
| Interpretation.InterpretIopBoundaries | src/interpretation.py:23-25 | 9.9 is Mild Hypotony, 10.0 and 20.999 are Normal Range, 21.0 is Borderline Elevated |
| Interpretation.GetConfidenceNote | src/interpretation.py:30-47 | the first of the four notes whose threshold the spread does not exceed; ConfidenceNoteByRank, ConfidenceTiers and ConfidenceMonotone say which spread gets which note |
| Interpretation.ConfidenceNoteByRank | src/interpretation.py:40-47 | the note is the one ranked by how many of the three thresholds the spread exceeds |
| Interpretation.ConfidenceTiers | src/interpretation.py:40-47 | spread <= 2 is Excellent, (2, 4] Good, (4, 6] Fair, above 6 High variability |
| Interpretation.ConfidenceMonotone | src/interpretation.py:40-47 | a larger spread never gives a better tier |
| Interpretation.GetStatusColor | src/interpretation.py:50-65 | red for a label containing "Hypotony", else green for one containing "Normal", else orange; StatusColorOfValue gives the colour of every pressure value |
| Interpretation.Contains | src/interpretation.py:60-62 | Python's substring test `sub in s`; ContainsAt characterises it |
| Interpretation.ContainsAt | src/interpretation.py:60-62 | the substring test holds exactly when the pattern occurs at some position of the string |
| Interpretation.HypotonyLabels | src/config.py:44-52 | exactly the first three labels contain "Hypotony" |
| Interpretation.NormalLabels | src/config.py:44-52 | only the label of the "normal" band contains "Normal" |
| Interpretation.StatusColorOfValue | src/interpretation.py:60-65 | composed with the classifier: [0, 10) is red, [10, 21) green, at or above 21 (and negative values) orange |
| Samples.Sum | src/safe_iop.py:39 | np.sum of the readings; SumConcat, SumWithin and SumPermutation state that it adds over concatenation, is bounded by n·lo and n·hi, and depends only on the multiset |
| Samples.Mean | src/mean_iop.py:29 | np.mean, the sum over the count; MeanTimesCount, MeanWithin and MeanPermutation relate it to the sum and to the bounds |
| Samples.Min | src/safe_iop.py:40 | np.min: no reading is smaller |
| Samples.Max | src/safe_iop.py:41 | np.max: no reading is larger |
| Samples.MinMaxIn | src/statistics.py:24-25 | the minimum and the maximum are themselves readings |
| Samples.Sort | src/iqm_iop.py:37 | np.sort: an ascending permutation of the sample, of the same length |
| Samples.SortedUnique | src/iop_calculator.py:58 | two ascending sequences with the same multiset of values are equal |
| Samples.SortPermutation | src/iop_calculator.py:58 | samples with the same multiset have the same sorted order |
| Samples.SortEnds | src/safe_iop.py:40-41 | the sorted sample starts at the minimum and ends at the maximum |
| Samples.SumPermutation | src/safe_iop.py:39 | the sum depends only on the multiset of readings |
| Samples.MinMaxPermutation | src/safe_iop.py:40-41 | the minimum and the maximum depend only on the multiset |
| Samples.MeanWithin | src/mean_iop.py:29 | the mean of readings within [lo, hi] is within [lo, hi] |
| Samples.MeanTimesCount | src/mean_iop.py:29 | the mean times the count is the sum |
| Samples.MeanOfFew | src/safe_iop.py:37 | the mean of one or two readings is the average of the first and the last |
| Samples.MeanPermutation | src/mean_iop.py:29 | the mean depends only on the multiset |
| Samples.SumOfPositive | src/weighted_iop.py:45 | a sum of positive terms over a non-empty sample is positive |
| Samples.SumOfPermutation | src/weighted_iop.py:45 | a sum of f over the readings depends only on the multiset |
| Samples.Interpolate | src/trimean_iop.py:36-38 | numpy's linear interpolation between the order statistics at floor(h) and floor(h) + 1; InterpolateBracket, InterpolateWithin, InterpolateMonotone, InterpolateAtRank and InterpolateHalfway state its meaning |
| Samples.Percentile | src/trimean_iop.py:36-38 | np.percentile with linear interpolation, at rank (n-1)p/100 of the sorted sample; PercentileWithin, PercentileMonotone and PercentilePermutation bound it, order it in p and tie it to the multiset |
| Samples.Position | src/trimean_iop.py:36 | the fractional rank (n-1)p/100 lies in [0, n-1] |
| Samples.PositionMonotone | src/trimean_iop.py:36-38 | a larger percentile gives a later rank |
| Samples.InterpolateBracket | src/trimean_iop.py:36 | on a sorted sample the interpolated value lies between the order statistics at floor(h) and the next one |
| Samples.InterpolateWithin | src/trimean_iop.py:36 | interpolation stays within the first and last sorted values |
| Samples.InterpolateMonotone | src/trimean_iop.py:36-38 | on a sorted sample interpolation is monotone in the rank |
| Samples.InterpolateAtRank | src/trimean_iop.py:36 | at a whole rank k interpolation gives the k-th sorted value |
| Samples.InterpolateHalfway | src/trimean_iop.py:37 | halfway between ranks k and k+1 it gives their average |
| Samples.PercentileWithin | src/trimean_iop.py:36-38 | every percentile lies in [min, max] |
| Samples.PercentileMonotone | src/trimean_iop.py:36-38 | percentiles are monotone in p |
| Samples.Median | src/possible_iop.py:29 | np.median, the middle sorted value or the average of the two middle ones; MedianIsPercentile50, MedianWithin, MedianOfThree and MedianSplits state what it is |
| Samples.MedianIsPercentile50 | src/trimean_iop.py:37 | np.median equals the 50th percentile under linear interpolation |
| Samples.MedianWithin | src/possible_iop.py:29 | min <= median <= max |
| Samples.MedianOfThree | src/possible_iop.py:29 | the median of three readings is the middle sorted one |
| Samples.MedianSplits | src/possible_iop.py:29 | at least half of the sorted readings lie at or below the median and at least half at or above it |
| Samples.MedianPermutation | src/possible_iop.py:29 | the median depends only on the multiset |
| Samples.PercentilePermutation | src/trimean_iop.py:36-38 | every percentile depends only on the multiset |
| SafeIop.CalculateSafeIop | src/safe_iop.py:14-45 | the mean for fewer than three readings, else the sum less one minimum and one maximum over n - 2; the lemmas below state that it is the sorted interior's mean, lies in [min, max] and depends only on the multiset |
| SafeIop.SafeIopIsInteriorMean | src/safe_iop.py:39-43 | for n >= 3, (sum - min - max)/(n - 2) is the mean of the sorted sample without its first and last positions: one minimum and one maximum are dropped even with ties |
| SafeIop.InteriorSum | src/safe_iop.py:39-43 | sum - min - max equals the sum of the sorted interior |
| SafeIop.SafeIopOfFew | src/safe_iop.py:36-37 | with one or two readings the estimate is their mean |
| SafeIop.SafeIopOfThree | src/safe_iop.py:43 | with three readings the estimate is the middle sorted value |
| SafeIop.SafeIopWithin | src/safe_iop.py:34-45 | min <= estimate <= max for every non-empty sample |
| SafeIop.SafeIopPermutation | src/safe_iop.py:39-43 | the estimate depends only on the multiset |
| PossibleIop.CalculatePossibleIop | src/possible_iop.py:13-29 | the median of the readings; the lemmas below state that it lies in [min, max], splits the sample in halves and depends only on the multiset |
| PossibleIop.PossibleIopIsMedian | src/possible_iop.py:29 | the estimate lies in [min, max] and splits the sorted sample in halves |
| PossibleIop.PossibleIopPermutation | src/possible_iop.py:29 | the estimate depends only on the multiset |
| ClinicalIop.CalculateClinicalIop | src/clinical_iop.py:13-29 | the midpoint of the minimum and the maximum; the lemmas below state that it is equidistant from both and depends only on the multiset |
| ClinicalIop.ClinicalIopIsMidrange | src/clinical_iop.py:29 | the estimate lies in [min, max], is equidistant from both, and equals min plus half the spread |
| ClinicalIop.ClinicalIopPermutation | src/clinical_iop.py:29 | the estimate depends only on the multiset |
| MeanIop.CalculateMeanIop | src/mean_iop.py:13-29 | the arithmetic mean; the lemmas below relate it to the sum, bound it by [min, max] and tie it to the multiset |
| MeanIop.MeanIopTimesCount | src/mean_iop.py:29 | the estimate times n is the sum of the readings |
| MeanIop.MeanIopWithin | src/mean_iop.py:29 | min <= estimate <= max |
| MeanIop.MeanIopPermutation | src/mean_iop.py:29 | the estimate depends only on the multiset |
| TrimeanIop.CalculateTrimeanIop | src/trimean_iop.py:14-42 | (Q1 + 2·median + Q3)/4 with numpy's quartiles; the lemmas below place Q1 and Q3, order them around the median and bound the trimean by them |
| TrimeanIop.QuartilePositions | src/trimean_iop.py:36-38 | Q1 and Q3 are read at ranks (n-1)/4 and 3(n-1)/4 |
| TrimeanIop.QuartilesOrdered | src/trimean_iop.py:36-38 | Q1 <= median <= Q3 |
| TrimeanIop.TrimeanIopWithin | src/trimean_iop.py:40 | Q1 <= trimean <= Q3, and so min <= trimean <= max |
| TrimeanIop.TrimeanIopPermutation | src/trimean_iop.py:36-40 | the estimate depends only on the multiset |
| IqmIop.CalculateIqmIop | src/iqm_iop.py:14-52 | the mean of the sorted slice [floor(n/4), ceil(3n/4)), falling back to the plain mean for an empty slice; the lemmas below show the slice is never empty and bound the estimate |
| IqmIop.IqmIndices | src/iqm_iop.py:41-42 | the indices are floor(n/4) and ceil(3n/4), 0 <= lower <= upper <= n, and lower < upper for n >= 1 |
| IqmIop.IqmIopIsSliceMean | src/iqm_iop.py:37-50 | the slice is never empty, so the estimate is always the mean of the sorted slice [floor(n/4), ceil(3n/4)) and the fallback is unreachable |
| IqmIop.IqmSliceWithin | src/iqm_iop.py:45 | the slice lies within [min, max] |
| IqmIop.IqmIopWithin | src/iqm_iop.py:45-50 | min <= estimate <= max |
| IqmIop.IqmIopOfThree | src/iqm_iop.py:41-50 | with three readings the slice is the whole sample and the estimate is the mean |
| IqmIop.IqmIopOfFour | src/iqm_iop.py:41-50 | with four readings the estimate is the mean of the two middle sorted values |
| IqmIop.IqmIopPermutation | src/iqm_iop.py:37-52 | the estimate depends only on the multiset |
| WinsorizedIop.ReplaceExtremes | src/winsorized_iop.py:45-47 | a fresh copy of the same length, position 0 holding sorted[1], the last position holding sorted[n-2], every other position unchanged; the sorted input is not modified |
| WinsorizedIop.CalculateWinsorizedIop | src/winsorized_iop.py:38-49 | the array computation returns the Winsorized mean, which lies in [min, max] |
| WinsorizedIop.Winsorized | src/winsorized_iop.py:45-47 | the sorted sample with its first value replaced by the second and its last by the next-to-last; WinsorizedAt and WinsorizedWithin state each position and its bounds |
| WinsorizedIop.WinsorizedMean | src/winsorized_iop.py:14-49 | the mean for fewer than three readings, else the mean of the Winsorized sorted sample; the lemmas below bound it, give its small cases and tie it to the multiset |
| WinsorizedIop.WinsorizedAt | src/winsorized_iop.py:45-47 | the Winsorized sample has the same length; ends replaced by their neighbours, interior unchanged |
| WinsorizedIop.WinsorizedWithin | src/winsorized_iop.py:45-47 | on a sorted sample every Winsorized value lies in [sorted[1], sorted[n-2]] |
| WinsorizedIop.WinsorizedMeanInner | src/winsorized_iop.py:45-49 | for n >= 3, sorted[1] <= estimate <= sorted[n-2] |
| WinsorizedIop.WinsorizedMeanWithin | src/winsorized_iop.py:38-49 | min <= estimate <= max |
| WinsorizedIop.WinsorizedMeanOfFew | src/winsorized_iop.py:38-39 | with one or two readings the estimate is their mean |
| WinsorizedIop.WinsorizedMeanOfThree | src/winsorized_iop.py:46-49 | with three readings both ends become the middle value and the estimate is the median |
| WinsorizedIop.WinsorizedMeanPermutation | src/winsorized_iop.py:38-49 | the estimate depends only on the multiset |
| WeightedIop.CalculateWeightedIop | src/weighted_iop.py:14-47 | the sum of weight times reading over the weight sum, with weights 1/(1 + abs(x - median)); the lemmas below show the division is defined and the estimate lies in [min, max] |
| WeightedIop.Weight | src/weighted_iop.py:42 | every weight lies in (0, 1] and is exactly 1 when the reading equals the median |
| WeightedIop.WeightsPositive | src/weighted_iop.py:42-45 | all weights are positive and each weighted term is weight times reading |
| WeightedIop.WeightSum | src/weighted_iop.py:45 | the weight sum of a non-empty sample is positive, so the division is defined |
| WeightedIop.SumOfRatioBetween | src/weighted_iop.py:45 | with any positive weights, the weighted sum over the weight sum lies within the bounds of the readings |
| WeightedIop.WeightedMeanBetween | src/weighted_iop.py:42-45 | weighting readings in [lo, hi] against any centre gives a value in [lo, hi] |
| WeightedIop.WeightedIopBetween | src/weighted_iop.py:39-45 | the estimate of readings in [lo, hi] is in [lo, hi] |
| WeightedIop.WeightedIopWithin | src/weighted_iop.py:39-45 | min <= estimate <= max |
| WeightedIop.WeightedIopConstant | src/weighted_iop.py:39-45 | a constant sample v gives v |
| WeightedIop.WeightedIopPermutation | src/weighted_iop.py:39-45 | the estimate depends only on the multiset |
| Statistics.GetRange | src/statistics.py:24-25 | (min, max) with min <= max, both readings, every reading between them |
| Statistics.GetVariability | src/statistics.py:38 | the spread max - min is non-negative |
| Statistics.VariabilityZeroIffAllEqual | src/statistics.py:38 | the spread is zero exactly when all readings are equal |
| Statistics.VariabilityIsRangeWidth | src/statistics.py:24-38 | the spread is the width of the range |
| Statistics.GetVariance | src/statistics.py:41-51 | the ddof=1 variance behind np.std(..., ddof=1): squared deviations from the mean over n - 1; VarianceNonNegative and VarianceZeroIffAllEqual state its sign and when it is zero |
| Statistics.GetStandardDeviation | src/statistics.py:41-51 | the square root of that variance; StandardDeviationZeroIffAllEqual states that it is non-negative, squares to the variance and is zero exactly for a constant sample |
| Statistics.SquaredDeviationsZero | src/statistics.py:51 | a sum of squared deviations is non-negative and zero exactly when every reading equals the centre |
| Statistics.VarianceNonNegative | src/statistics.py:51 | the ddof=1 variance is non-negative for n >= 2 |
| Statistics.VarianceZeroIffAllEqual | src/statistics.py:51 | the variance is zero exactly when all readings are equal |
| Statistics.StandardDeviationZeroIffAllEqual | src/statistics.py:51 | with a true square root, the standard deviation is non-negative, squares to the variance, and is zero exactly for a constant sample |
| Statistics.StatisticsPermutation | src/statistics.py:14-51 | range, spread, variance and standard deviation depend only on the multiset |
| Validation.TrimStart | src/validation.py:32 | drops exactly the leading whitespace run: a suffix of the input, what was dropped is whitespace, and the result starts with a non-space |
| Validation.TrimEnd | src/validation.py:32 | drops exactly the trailing whitespace run: a prefix of the input, what was dropped is whitespace, and the result ends with a non-space |
| Validation.Strip | src/validation.py:27-32 | str.strip, both trims composed; StripIsCore, StripEnds, StripEmptyIffBlank and StripIdempotent state what it keeps and drops |
| Validation.StripIsCore | src/validation.py:32 | str.strip returns the slice between a whitespace prefix and a whitespace suffix, beginning and ending with a non-space |
| Validation.StripBounds | src/validation.py:32 | the indices of that slice |
| Validation.StripEnds | src/validation.py:32 | a non-empty stripped string begins and ends with a non-space |
| Validation.TrimBlank | src/validation.py:27 | either trim is empty exactly when the input is all whitespace |
| Validation.StripEmptyIffBlank | src/validation.py:27 | stripping gives the empty string exactly for blank input |
| Validation.StripIdempotent | src/validation.py:32 | stripping twice is stripping once |
| Validation.Split | src/validation.py:32 | str.split(','): at least one piece, no piece containing a comma |
| Validation.JoinSplit | src/validation.py:32 | joining the pieces with commas gives back the input |
| Validation.SplitJoin | src/validation.py:32 | splitting comma-free pieces joined with commas gives back the pieces |
| Validation.NonBlank | src/validation.py:32 | the kept tokens are no more than the pieces and none is empty; NonBlankOne and NonBlankConcat pin down exactly which pieces survive |
| Validation.NonBlankOne | src/validation.py:32 | one piece gives its stripped form as a token, or no token when it is blank |
| Validation.NonBlankConcat | src/validation.py:32 | the tokens of two runs of pieces are the tokens of each run, concatenated: a blank piece is dropped wherever it stands and the survivors keep their input order |
| Validation.NonBlankEmptyIff | src/validation.py:32-35 | no token survives exactly when every piece is blank |
| Validation.NonBlankStripped | src/validation.py:32 | every surviving token is already stripped |
| Validation.NonBlankKeepsOrder | src/validation.py:32 | when no piece is blank, the tokens are the stripped pieces in input order, none dropped |
| Validation.NonBlankKeepsLength | src/validation.py:32 | when no piece is blank, no token is lost |
| Validation.NonBlankKeepsAt | src/validation.py:32 | when no piece is blank, the k-th token is the k-th piece, stripped |
| Validation.NonBlankTailKept | src/validation.py:32 | when no piece is blank, the first piece is kept ahead of the tokens of the rest |
| Validation.Tokens | src/validation.py:32 | the non-blank comma-separated pieces, stripped, in input order; the NonBlank lemmas and JoinSplit state what they are |
| Validation.ParseValues | src/validation.py:32 | succeeds exactly when every token converts, giving the converted values in order; otherwise an invalid-format error |
| Validation.FirstOutOfRange | src/validation.py:38-43 | the first value in input order outside [0, 100]; None when all are inside (both bounds accepted) |
| Validation.ValidateMeasurementCount | src/validation.py:63-67 | succeeds exactly for three or more values; the error carries the count |
| Validation.ParseIopInput | src/validation.py:14-50 | the empty-input check, then conversion of every token, the no-values check and the range check in input order; the lemmas below state each outcome |
| Validation.ValidateMeasurements | src/validation.py:70-85 | the parse followed by the count check; ValidationOrder and ValidatedSample state the order of the checks and what a success guarantees |
| Validation.EmptyInputIffBlank | src/validation.py:27-28 | the empty-input error occurs exactly for empty or whitespace-only input |
| Validation.InvalidTokenRejected | src/validation.py:47-49 | a token that does not convert gives the invalid-format error, before any range check |
| Validation.OnlySeparatorsRejected | src/validation.py:34-35 | non-blank input with only blank pieces gives the no-valid-values error |
| Validation.FirstOutOfRangeReported | src/validation.py:38-43 | when all tokens convert, the first out-of-range value is the one reported |
| Validation.ParseIopInputSuccess | src/validation.py:32-45 | a successful parse comes from non-blank input with tokens, and returns the converted tokens in input order, all in [0, 100] |
| Validation.ParseIopInputAccepts | src/validation.py:32-45 | non-blank input whose tokens all convert to values in [0, 100] is accepted |
| Validation.ValidationOrder | src/validation.py:83-85 | a parse error is returned as is; the count is checked only after a successful parse; success returns the parsed values unchanged |
| Validation.ValidatedSample | src/validation.py:83-85 | a validated sample has at least three readings, all in [0, 100] |
| Calculator.ResultRecord | src/iop_calculator.py:114-129 | the record has exactly the thirteen result keys |
| Calculator.ResultKeysCount | src/iop_calculator.py:114-129 | the thirteen keys are distinct; the repeated trimean entry collapses to one |
| Calculator.ResultRecordEntries | src/iop_calculator.py:114-129 | each key holds the value it is given |
| Calculator.EstimatesWithinRange | src/iop_calculator.py:61-91 | all eight estimates lie between the minimum and the maximum |
| Calculator.EstimatesOfConstantSample | src/iop_calculator.py:105-129 | a constant sample v gives v for all eight estimates and a zero spread and variance |
| Calculator.IopCalculator.constructor | src/iop_calculator.py:58-59 | stores the sorted readings and their count |
| Calculator.IopCalculator.Create | src/iop_calculator.py:55-59 | fewer than three readings are refused with the required minimum; otherwise a fresh calculator holds them |
| Calculator.IopCalculator.SortedReadings | src/iop_calculator.py:58-59 | the stored readings are an ascending permutation of the input, and n is their count (at least 3) |
| Calculator.IopCalculator.CalculateSafeIop | src/iop_calculator.py:61-63 | the safe estimate of the readings as given, within [min, max] |
| Calculator.IopCalculator.CalculatePossibleIop | src/iop_calculator.py:65-67 | the median of the readings as given, within [min, max] |
| Calculator.IopCalculator.CalculateClinicalIop | src/iop_calculator.py:69-71 | the midrange of the readings as given, within [min, max] |
| Calculator.IopCalculator.CalculateMeanIop | src/iop_calculator.py:73-75 | the mean of the readings as given, within [min, max] |
| Calculator.IopCalculator.CalculateTrimeanIop | src/iop_calculator.py:77-79 | the trimean of the readings as given, within [min, max] |
| Calculator.IopCalculator.CalculateIqmIop | src/iop_calculator.py:81-83 | the interquartile mean of the readings as given, within [min, max] |
| Calculator.IopCalculator.CalculateWinsorizedIop | src/iop_calculator.py:85-87 | the Winsorized mean of the readings as given, within [min, max] |
| Calculator.IopCalculator.CalculateWeightedIop | src/iop_calculator.py:89-91 | the weighted mean of the readings as given, within [min, max] |
| Calculator.IopCalculator.GetRange | src/iop_calculator.py:93-95 | the minimum and the maximum of the readings, which are the first and last stored values |
| Calculator.IopCalculator.GetVariability | src/iop_calculator.py:97-99 | the spread max - min, non-negative |
| Calculator.IopCalculator.GetStandardDeviation | src/iop_calculator.py:101-103 | the standard deviation of the readings as given |
| Calculator.IopCalculator.CalculateAll | src/iop_calculator.py:105-129 | thirteen keys, each estimate equal to its estimator on the readings, min <= max, the spread equal to max - min, the count equal to n |
| Calculator.IopCalculator.InterpretIop | src/iop_calculator.py:131-133 | the classifier's label, always one of the seven labels |
| Calculator.IopCalculator.GetConfidenceNote | src/iop_calculator.py:135-138 | the confidence note of the sample's spread |
| Examples.TypedOrder | src/safe_iop.py:39-43 | the typed readings 12, 14, 13, 15, 12 are an arrangement of 12, 12, 13, 14, 15 |
| Examples.SortReadings | src/iqm_iop.py:37 | any arrangement of those readings sorts to 12, 12, 13, 14, 15 |
| Examples.ReadingsFacts | src/safe_iop.py:39-41 | five readings, sum 66, min 12, max 15 |
| Examples.SafeIopWithTies | src/safe_iop.py:39-43 | the tied minimum is dropped once: the safe estimate is 13 |
| Examples.MeanIopExample | src/mean_iop.py:29 | the mean is 13.2 |
| Examples.PossibleIopExample | src/possible_iop.py:29 | the median is 13 |
| Examples.ClinicalIopExample | src/clinical_iop.py:29 | the midrange is 13.5 |
| Examples.TrimeanIopExample | src/trimean_iop.py:36-40 | Q1 is 12, Q3 is 14, the trimean is 13 |
| Examples.IqmOfFive | src/iqm_iop.py:41-50 | with five readings the estimate is the mean of the three middle sorted values |
| Examples.IqmIopExample | src/iqm_iop.py:37-52 | the interquartile mean is 13 |
| Examples.WinsorizedIopExample | src/winsorized_iop.py:41-49 | the Winsorized mean is 13 |
| Examples.WeightedSumsOfReadings | src/weighted_iop.py:42-45 | the weights sum to 17/6 and the weighted readings to 37 |
| Examples.WeightedIopExample | src/weighted_iop.py:39-47 | the weighted mean is 222/17 |
| Examples.SpreadExample | src/interpretation.py:40-43 | the spread is 3, which gives the "Good" confidence note |
| Examples.TokensOfPieces | src/validation.py:32 | when no piece is blank, the tokens are the stripped pieces and the input is not blank |
| Examples.PiecesParsed | src/validation.py:32-45 | input whose pieces all convert to values in [0, 100] parses to those values in input order |
| Examples.PiecesOutOfRange | src/validation.py:38-43 | the first out-of-range piece is the one reported |
| Examples.FirstPieceShows | src/validation.py:27 | input whose first piece is not blank is not blank |
| Examples.BlankMiddleDropped | src/validation.py:32 | of three pieces with a blank middle one, the tokens are the first and the last, stripped |
| Examples.BlankPieceTokens | src/validation.py:32 | input such as "10, ,12" has the tokens "10" and "12" and is not blank |
| Examples.TwoTokensParsed | src/validation.py:32-45 | input with exactly two tokens that convert to values in [0, 100] parses to those two values |
| Examples.BlankPieceParsed | src/validation.py:32-45 | "10, ,12" parses to the two readings 10 and 12 |
| Examples.BlankPieceRefused | src/validation.py:83-85 | "10, ,12" is refused by the count check with count 2: the blank piece is not a reading |
| Examples.TwoReadingsParsed | src/validation.py:32-45 | two valid readings parse to both values |
| Examples.TwoReadingsRefused | src/validation.py:63-67 | two valid readings pass parsing but are refused by the count check with count 2 |
| Examples.OutOfRangeBeforeCount | src/validation.py:83-85 | an out-of-range value is reported even when there are too few readings, since the range check runs first |
| Examples.InvalidFormatExample | src/validation.py:47-49 | an invalid middle token gives the invalid-format error |

## Left out

- Rounding. Every estimator and statistic in the source passes its result through Python's `round(x, 1)` (the standard deviation through `round(x, 2)`). The model computes exact reals and omits that step. As a result, "variability equals max_iop - min_iop" is proved before rounding only.
- Floating point. Readings are exact reals. NaN and infinities are not values of the model. A NaN would pass the range check in the source, because both comparisons are false.
- Statistics.GetStandardDeviation: the square root is a parameter `sqrt`. The properties of the standard deviation are proved for any true square root, and through the variance.
- Validation.ParseIopInput: Python's `float()` token syntax becomes the parameter `toFloat`, which returns None for a token that is not a number. Exponents, "inf", "nan" and underscores are therefore not modelled.
- Error messages are datatype values (`ValidationError`, `CalculatorError`), not message text. The only message inspected is "could not convert", and that inspection becomes the `InvalidNumberFormat` case.
- Whitespace is the set of characters Python's `str.isspace` accepts, listed by code point. Other Unicode properties are not modelled.
- The estimators require a non-empty sample. numpy returns NaN or raises on an empty one, and the calculator never passes one. The variance requires at least two readings, which is where ddof=1 is defined.
- The estimators are functions of a sequence. numpy's own sort, median and percentile implementations are replaced by their mathematical definitions.
- The calculator's ghost field `readings` records the constructor's argument. The source keeps only the sorted copy. The ghost field lets the getters be stated against the readings as given.
- Calculator.IopCalculator.GetConfidenceNote: its contract states only that it applies the interpretation's confidence function to the spread. The tiers themselves are stated by `Interpretation.ConfidenceTiers`.
- Samples.Min: its contract states only the lower bound. That the minimum is itself a reading is the separate lemma `Samples.MinMaxIn`.
- Samples.Max: its contract states only the upper bound. That the maximum is itself a reading is the separate lemma `Samples.MinMaxIn`.
- The examples are stated for every arrangement of the readings 12, 12, 13, 14, 15. The validator examples are stated for every input that splits into the given pieces, not for one literal string.
- The Streamlit front end (src/app_main.py), the plotting module (src/visualization.py), the launcher (app.py) and the presentation settings in src/config.py (`STREAMLIT_CONFIG`, `THEME_CONFIG`, `PLOT_STYLE`, `CLINICAL_ZONES`) are user interface, not part of this model.
