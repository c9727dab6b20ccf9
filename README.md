# gbtcal DCR continuum calibration, modelled in Dafny

gbtcal calibrates Green Bank Telescope continuum data taken with the DCR
(Digital Continuum Receiver). A scan's DCR STATE and DATA tables and the DCR
rows of its IF table are consolidated into one table. That table has one row
per (port, phase), where a phase is a (SIGREF, CAL) state. A Calibrator then
runs the table through four stages:

- cal factors: gains from the noise diode, or from a calibration sequence;
- attenuation: antenna temperature, or the raw counts;
- inter-polarization: the average of the two polarizations;
- inter-beam: signal beam less reference beam.

Around this core sit several pieces:

- the receiver-specific calibrators (Ka, W band, Argus);
- the receiver 68/92 calibration-sequence scans;
- the option validation of `doCalibrate`;
- an older, function-based pipeline (`dcr_decode_astropy.py`, `dcr_calibrate.py` and `src/Calibrators.py`);
- a project finder's utilities.

The Dafny modules follow the Python modules:

| module | models |
|---|---|
| `Wrappers`, `Ordering`, `Text`, `RealSeq` | Python exceptions as `Result`; numpy's `unique` order; `str` utilities; numpy's median and elementwise arithmetic |
| `Constants` | `gbtcal/constants.py` |
| `QueryTable`, `StrippedTable` | `table/querytable.py`, `src/stripped_table.py` |
| `DcrTable` | `gbtcal/dcrtable.py` |
| `Decode` | `gbtcal/decode.py` |
| `Converter`, `Attenuation`, `InterOps` | `gbtcal/converter.py`, `gbtcal/attenuate.py`, `gbtcal/interpolops.py`, `gbtcal/interbeamops.py` |
| `Calibrators`, `Pipeline` | `gbtcal/calibrator.py` |
| `Argus` | `gbtcal/ArgusCalibration.py` |
| `Calibrate` | `gbtcal/calibrate.py` |
| `Rcvr6892` | `gbtcal/Rcvr68_92.py` |
| `CalSeqScans` | `gbtcal/CalSeqScan.py` |
| `CalResults` | `src/CalibrationResults.py` |
| `SrcCalibrators` | `src/Calibrators.py` |
| `DcrCalibrate` | `dcr_calibrate.py` |
| `DcrDecodeAstropy` | `dcr_decode_astropy.py` |
| `ProjFinder` | `gbtcal/test/projfinder/projFinder.py` |

How Python code becomes Dafny:

- Pure Python functions become Dafny functions, each paired with lemmas that state what it means.
- Loops that fill tables, lists or dictionaries become methods with loop invariants. Each such method is proved equal to a specification function, and the properties are proved about that function.
- Objects whose fields the source updates in place become classes.
- Python exceptions are `Err` values of `Wrappers.Error`.
- Floating point is exact `real` arithmetic.

## Model

| member | source | states |
|---|---|---|
| DcrTable.ValidStatesMeaning | gbtcal/dcrtable.py:123-135 | the distinct CAL (or SIGREF) values pass the check exactly when there is a value and every value is 0 or 1 |
| DcrTable.CheckedNonEmpty | gbtcal/dcrtable.py:123-143 | once the STATE and RECEIVER checks pass, STATE and the IF rows are non-empty and there is at least one phase |
| DcrTable.StateLessIsStrictTotal | gbtcal/dcrtable.py:162 | (SIGREF, CAL) records are ordered lexicographically, which is a strict total order, so numpy.unique of them is well defined |
| DcrTable.SortByPortProperties | gbtcal/dcrtable.py:165-167 | sorting by PORT gives rows ordered by port that are a permutation of the replicated IF rows |
| DcrTable.Skeleton | gbtcal/dcrtable.py:162-190 | the stacked table has len(IF rows) × P rows, P being the number of distinct (SIGREF, CAL) pairs |
| DcrTable.SkeletonLayout | gbtcal/dcrtable.py:162-190 | the skeleton's ports never decrease, row k carries the SIGREF and CAL of STATE row k mod len(STATE), and DATA starts as zeros |
| DcrTable.SkeletonRows | gbtcal/dcrtable.py:165-167 | the skeleton's IF columns are the IF rows, each exactly P times, in PORT order |
| DcrTable.RepeatAt | gbtcal/dcrtable.py:177-178 | vstack of n copies puts row k of the result at row k mod len(s) of the original |
| DcrTable.IndexBoundedInjective | gbtcal/dcrtable.py:240-244 | the write index portIndex·(nS·nC) + sIdx·nC + cIdx lies in [0, nP·nS·nC) and distinct positions get distinct indices |
| DcrTable.IndexNext | gbtcal/dcrtable.py:223-244 | the loops visit the write indices in increasing order without gaps |
| DcrTable.FirstMatch | gbtcal/dcrtable.py:205-237 | the PHASE number of a phase is the position of the first STATE row equal to it, and no earlier row matches |
| DcrTable.CountPositive | gbtcal/dcrtable.py:227-232 | some STATE row matches a phase exactly when the phase occurs in STATE |
| DcrTable.Slice | gbtcal/dcrtable.py:248 | DATA[::, port, phase] holds one count per integration, that integration's count for the port and phase |
| DcrTable.WritePhaseData | gbtcal/dcrtable.py:223-249 | the triple loop succeeds exactly when every port, phase and index is inside DATA and the table and every phase matches one STATE row; it then writes each position's slice at its index and nothing else; otherwise IndexError or the PHASE ValueError |
| DcrTable.WritePort | gbtcal/dcrtable.py:225-249 | the loops of one port extend the written prefix to the next port's first index, or fail only when the whole loop fails |
| DcrTable.WriteSigRef | gbtcal/dcrtable.py:226-249 | the CAL loop of one port and SIGREF value extends the written prefix, or fails only when the whole loop fails |
| DcrTable.BadPhase | gbtcal/dcrtable.py:232-236 | a phase without exactly one STATE row (or outside DATA) makes the loop fail |
| DcrTable.BadPort | gbtcal/dcrtable.py:248 | a port index beyond DATA's port axis makes the loop fail |
| DcrTable.BadIndex | gbtcal/dcrtable.py:249 | a write index beyond the table makes the loop fail |
| DcrTable.WriteStep | gbtcal/dcrtable.py:240-249 | one write makes its position written and disturbs no earlier one |
| DcrTable.WriteOne | gbtcal/dcrtable.py:249 | the row written for one position is never overwritten by a later position |
| DcrTable.LoopDone | gbtcal/dcrtable.py:223-249 | after the last port every position is written and the loop has succeeded |
| DcrTable.WrittenAt | gbtcal/dcrtable.py:240-249 | each (port, SIGREF, CAL) position of a finished loop holds DATA[::, port, phase] at its index |
| DcrTable.ConsolidateFitsData | gbtcal/dcrtable.py:113-254 | the CAL check, the SIGREF check and the RECEIVER check fail in that order with their ValueErrors; after them the result is Ok exactly when the triple loop completes, and the table is the skeleton with the loop's DATA, RECEIVER from the first IF row and no FACTOR column |
| DcrTable.ConsolidateChecked | gbtcal/dcrtable.py:143-254 | once the STATE and RECEIVER checks have passed, the result is Ok exactly when the triple loop completes, fails only with IndexError or the PHASE ValueError, and is then the skeleton with the loop's DATA |
| DcrTable.ConsolidatedFirst | gbtcal/dcrtable.py:223-249 | row 0 of the consolidated table holds port 0's slice for the first (SIGREF, CAL) pair in sorted order |
| DcrTable.Filter | gbtcal/dcrtable.py:58-62 | a mask keeps exactly the rows that pass and never adds rows |
| DcrTable.FilterCounts | gbtcal/dcrtable.py:58-62 | a mask keeps every passing row with its multiplicity and drops the others |
| DcrTable.FilterAppend | gbtcal/dcrtable.py:58-62 | masking keeps row order, because it distributes over concatenation |
| DcrTable.GetDataForPhaseMeaning | gbtcal/dcrtable.py:51-62 | getDataForPhase keeps exactly the rows with SIGREF 0 for the signal beam (1 for the reference beam) and the given CAL, with their multiplicities |
| DcrTable.UniqueFeedsMeaning | gbtcal/dcrtable.py:33-34 | getUniqueFeeds is strictly increasing and holds exactly the feeds of the table |
| DcrTable.SigAndRefFeedsMeaning | gbtcal/dcrtable.py:64-86 | fewer than two feeds raise ValueError; otherwise {sig, ref} is the two smallest feeds, and sig is the smallest exactly when the track beam is |
| DcrTable.GetCalData | gbtcal/dcrtable.py:256-263 | _getCalData succeeds exactly when one row has the CAL state, and returns that row's DATA; otherwise ValueError |
| DcrTable.CalOnOffData | gbtcal/dcrtable.py:265-269 | with one row per CAL state, getCalOnData and getCalOffData return those rows' DATA |
| DcrTable.GetFactorMeaning | gbtcal/dcrtable.py:271-278 | getFactor succeeds exactly when the FACTOR column exists, there is a row, and every row has the same FACTOR, which it returns; otherwise ValueError |
| DcrTable.GetTrackFeedData | gbtcal/dcrtable.py:280-281 | getTrackFeedData keeps exactly the rows of the track beam's feed |
| DcrTable.LabelData | gbtcal/dcrtable.py:223-249 | corrected layout: each skeleton row receives the slice of its own port and of the phase its SIGREF and CAL name; the first row that cannot be resolved fails with IndexError or the PHASE ValueError |
| DcrTable.ConsolidateLabelledMeaning | gbtcal/dcrtable.py:113-254 | corrected consolidation: it is Ok exactly when the checks pass and every row can be resolved, and every row then holds the DATA its PORT, SIGREF and CAL name |
| DcrTable.SwappedConsolidates | gbtcal/dcrtable.py:123-249 | a STATE table listing cal-on before cal-off passes every check and completes the loop |
| DcrTable.PhaseLabelMismatch | gbtcal/dcrtable.py:205-249 | as written, the consolidated row labelled CAL = 1 receives the cal-off counts for that STATE table |
| DcrTable.LabelledSwapped | gbtcal/dcrtable.py:205-249 | corrected, the same input gives the CAL = 1 row the cal-on counts |
| Decode.FindStart | gbtcal/decode.py:107-113 | the start search stops at the first bin boundary from i on that is not below left, or runs off the end of x |
| Decode.SweepBins | gbtcal/decode.py:119-126 | the middle loop stops at the end of x or at the first boundary beyond right |
| Decode.HistogramArea | gbtcal/decode.py:86-131 | the method with the source's loops computes the histogram area function, including its errors |
| Decode.StartIndex | gbtcal/decode.py:106-113 | the first loop stops at the first boundary from index 1 on that is not below left, and reports the read past the end of x as None |
| Decode.Sweep | gbtcal/decode.py:119-126 | the middle loop adds whole bins while the next boundary is within right, ending where the bin sweep does |
| Decode.AreaChecksMeaning | gbtcal/decode.py:90-98 | the asserts fail (AssertionError) exactly when x[0] >= x[-1], left >= right, or len(x) != len(y) |
| Decode.HistogramSweeps | gbtcal/decode.py:106-131 | when the band overlaps x, the area is the swept area from the first boundary at or after left, and IndexError when there is none |
| Decode.HistogramConstant | gbtcal/decode.py:86-131 | as written, a constant curve k that yields an area yields (right − left)·k |
| Decode.SweepConstant | gbtcal/decode.py:119-126 | with constant y the middle bins telescope |
| Decode.SweepPath | gbtcal/decode.py:119-126 | the bins the middle loop visits depend only on x and right |
| Decode.SweepMonotone | gbtcal/decode.py:119-126 | over increasing x, a curve that is nowhere higher sweeps no more area |
| Decode.CorrectedCases | gbtcal/decode.py:100-131 | the corrected area in each of its cases (out of range, band in one bin, sweep) |
| Decode.CorrectedConstant | gbtcal/decode.py:86-131 | corrected, a constant curve k yields (right − left)·k |
| Decode.CorrectedTotal | gbtcal/decode.py:86-131 | corrected, the only failures are the asserts |
| Decode.CorrectedMonotone | gbtcal/decode.py:86-131 | corrected, over increasing x the area is monotone in the curve |
| Decode.CorrectedBounds | gbtcal/decode.py:86-131 | corrected, a curve between lo and hi yields an area between lo and hi times the band width |
| Decode.HistogramReadsPastEnd | gbtcal/decode.py:109-113 | as written, a band inside the last bin makes the start search read past the end of x |
| Decode.HistogramNegative | gbtcal/decode.py:115-129 | as written, a band that ends before the first boundary found gets a negative area for a positive curve |
| Decode.MatchingMeaning | gbtcal/decode.py:144-149 | the mask keeps exactly the calibration rows of the feed, receptor and polarization |
| Decode.CalTemps | gbtcal/decode.py:150-154 | HIGH_CAL_TEMP when highCal is set, LOW_CAL_TEMP otherwise |
| Decode.HistogramTotal | gbtcal/decode.py:86-131 | as written, the area exists exactly when the asserts pass and the band lies outside x or some bin boundary is at or past its start; inside x with every boundary below the start it is IndexError |
| Decode.HistogramAgrees | gbtcal/decode.py:86-131 | the as-written area exists only where the corrected one does, and equals it, as does its band mean, unless the start search runs off the end or stops past the band |
| Decode.HistogramMeanConstant | gbtcal/decode.py:157-159 | as written, a constant curve k that gives an area gives k once divided by the band width |
| Decode.TcalErrors | gbtcal/decode.py:134-159 | getTcal as written succeeds exactly when some row matches, the matching frequencies increase end to end, the bandwidth is positive, and the band lies outside the frequencies or some bin boundary is at or past its start; an empty selection and a start search that runs off the end are IndexError, the rest AssertionError |
| Decode.TcalIsBandMean | gbtcal/decode.py:141-159 | a getTcal that succeeds as written also succeeds corrected, and equals the band mean over the corrected area unless the start search runs off the end or stops past the band |
| Decode.TcalConstant | gbtcal/decode.py:134-159 | even as written, a calibration temperature that is the same k at every frequency gives Tcal = k |
| Decode.TcalBounds | gbtcal/decode.py:134-159 | over increasing frequencies, a getTcal whose start search stops inside the band lies between the smallest and largest calibration temperature |
| Decode.TcalEdgeCases | gbtcal/decode.py:134-159 | as written, frequencies 0 and 10 with a band [6, 8] raise IndexError, and temperatures 1 and 3 with a band [1, 2] give −5; corrected, both give 1 |
| Decode.CorrectedTcalErrors | gbtcal/decode.py:134-159 | the corrected getTcal succeeds exactly when some row matches, the matching frequencies increase end to end and the bandwidth is positive; an empty selection is an IndexError, the rest AssertionError |
| Decode.CorrectedTcalBounds | gbtcal/decode.py:134-159 | over increasing frequencies, the corrected getTcal always lies between the smallest and largest calibration temperature |
| Decode.MeanOfConstant | gbtcal/decode.py:157-159 | with the corrected area, a constant curve has that constant as its band mean |
| Decode.MeanBounded | gbtcal/decode.py:157-159 | with the corrected area, a curve between lo and hi has a band mean between lo and hi |
| Decode.AntennaTemperature | gbtcal/decode.py:79-83 | one temperature per integration; an error exactly when the arrays differ in length or, for non-empty arrays, tCal or the counts per kelvin is zero |
| Decode.AntennaTemperatureRecovers | gbtcal/decode.py:79-83 | counts that are a gain times the sky temperature, with the diode adding gain × tCal when on, convert back to the sky temperature |
| Decode.PhaseNameMeaning | gbtcal/decode.py:197-201 | a phase name starts with "Signal" exactly for SIGREF 0 and names "Cal" exactly for CAL 1; the names of 0/1 states read back, so the four names differ |
| Decode.DcrDataDescriptors | gbtcal/decode.py:205-219 | one descriptor per row, in row order |
| Decode.DescriptorRecovers | gbtcal/decode.py:205-219 | a descriptor keeps the row's feed and sky frequency, and its phase name gives back SIGREF and CAL |
| Converter.CalSeqTotalPowerMeaning | gbtcal/converter.py:27-41 | CalSeqConverter succeeds exactly for a one-row table (else ValueError); each output sample is FACTOR × (sample − median of the samples), as many as the input |
| Converter.CalSeqLinear | gbtcal/converter.py:37-40 | the conversion is linear in the gain |
| Converter.CalSeqConstant | gbtcal/converter.py:40 | a constant cal-off series converts to zeros |
| Converter.CalSeqMedianZero | gbtcal/converter.py:40 | with a positive gain the converted series has median zero |
| Converter.CalDiodeTotalPowerMeaning | gbtcal/converter.py:51-71 | CalDiodeConverter needs one cal-on row, one cal-off row and one shared FACTOR, failing at the first lookup that fails, and returns the antenna temperature of those rows' data; empty DATA raises IndexError in the debug line that reads the first and last temperature |
| Converter.CalDiodeRecovers | gbtcal/converter.py:51-71 | counts that are a gain times the sky temperature, with the diode adding gain × FACTOR, convert back to the sky temperature |
| Converter.ConvertCountsToKelvin | gbtcal/converter.py:17-74 | the base converter raises NotImplementedError; the subclasses use their getTotalPower |
| Attenuation.Attenuate | gbtcal/attenuate.py:9-55 | the base attenuator raises NotImplementedError; the subclasses use their getTotalPower |
| Attenuation.CalDiodeTotalPowerMeaning | gbtcal/attenuate.py:35-55 | CalDiodeAttenuate needs one cal-on row, one cal-off row and one shared FACTOR, failing at the first lookup that fails, and returns the antenna temperature of those rows' data, as long as they are; empty DATA gives an empty result |
| Attenuation.AttenuatorsAgree | gbtcal/attenuate.py:14-55 | the attenuators compute what the converters compute, except that for an empty temperature array the diode attenuator returns it where the diode converter raises IndexError |
| Attenuation.EmptyPairAttenuates | gbtcal/attenuate.py:40 | a cal-on and cal-off row with empty DATA and FACTOR 2 attenuate to the empty array, where the converter raises IndexError |
| InterOps.InterPolCalibrate | gbtcal/interpolops.py:8-11 | the base class raises NotImplementedError |
| InterOps.AverageMeaning | gbtcal/interpolops.py:13-22 | the average needs exactly two rows (else ValueError); each sample lies midway between the two polarizations' samples |
| InterOps.AverageSymmetric | gbtcal/interpolops.py:20 | the average does not depend on which polarization comes first |
| InterOps.AverageIdempotent | gbtcal/interpolops.py:20 | two equal polarizations average to that series |
| InterOps.FeedData | gbtcal/interbeamops.py:17-18 | query(FEED=feed)['DATA'][0] is the data of the feed's first row, or IndexError when the feed has no row |
| InterOps.InterBeamCalibrate | gbtcal/interbeamops.py:7-10 | the base class raises NotImplementedError |
| InterOps.BeamSubtractionNeedsTwoFeeds | gbtcal/interbeamops.py:16 | fewer than two feeds in the raw table give getSigAndRefFeeds' ValueError |
| InterOps.BeamSubtractionMeaning | gbtcal/interbeamops.py:13-20 | the result is the first signal-feed row's data minus the first reference-feed row's data, sample by sample |
| InterOps.BeamSwapNegates | gbtcal/interbeamops.py:16-20 | moving the track beam to the other of the two smallest feeds negates the difference |
| Constants.DataNames | gbtcal/constants.py:4-6 | the filter keeps exactly the names of non-callable, non-dunder attributes |
| Constants.InheritedHasNoData | gbtcal/constants.py:1-15 | the inherited classmethods and dunders contribute no names |
| Constants.AreValidMeansAll | gbtcal/constants.py:13-15 | areValid holds exactly when every value is valid, and of the empty list |
| Constants.AllCharacterised | gbtcal/constants.py:2-7 | all() is sorted, as dir() is, and lists exactly the data attribute names |
| Constants.PolOptsAll | gbtcal/constants.py:18-21 | POLOPTS.all() is ["AVG", "XL", "YR"] |
| Constants.CalOptsAll | gbtcal/constants.py:24-29 | CALOPTS.all() is ["BEAMSWITCH", "BEAMSWITCHEDTBONLY", "DUALBEAM", "RAW", "TOTALPOWER"] |
| Constants.PolOptsRejectsAvg | gbtcal/constants.py:10-21 | as written, the option value 'Avg' is not valid, but the name 'AVG' is |
| Constants.PolsValid | gbtcal/constants.py:35-45 | POLS.isValid accepts exactly X, Y, L and R |
| Constants.ValuesAccepted | gbtcal/constants.py:2-21 | corrected to list values, POLOPTS accepts 'Avg' and rejects 'AVG' |
| QueryTable.Index | table/querytable.py:32 | a column name is found exactly when some column has it |
| QueryTable.Query | table/querytable.py:25-34 | the method with the source's loop computes the query specification |
| QueryTable.QueryMeaning | table/querytable.py:25-34 | query returns exactly the rows meeting every condition, in their original order, and raises KeyError exactly when a condition names an unknown column |
| QueryTable.WhereSelect | table/querytable.py:31-33 | filtering one more condition after a selection is the selection by all of them |
| QueryTable.QueryOrderIrrelevant | table/querytable.py:31-33 | the order (and repetition) of the conditions does not change the result |
| QueryTable.QueryNothing | table/querytable.py:25-34 | a query with no conditions returns the table unchanged |
| QueryTable.QueryIdempotent | table/querytable.py:25-34 | running a query on its own result changes nothing |
| QueryTable.Mask | table/querytable.py:36-42 | mask fails with KeyError exactly when a condition names an unknown column; otherwise entry i is true exactly when row i meets every condition |
| QueryTable.MaskedSelect | table/querytable.py:36-42 | the rows a mask keeps are the rows the conditions select |
| QueryTable.MaskAgreesWithQuery | table/querytable.py:25-42 | table[table.mask(**kv)] is table.query(**kv) |
| QueryTable.ValueLessIsStrictTotal | table/querytable.py:44-46 | numpy's order on cells is a strict total order |
| QueryTable.RowLessIsStrictTotal | table/querytable.py:44-46 | the field-by-field order on records is a strict total order |
| QueryTable.Indices | table/querytable.py:46 | self[columnNames] finds every named column, or fails when one is unknown |
| QueryTable.GetUniqueMeaning | table/querytable.py:44-46 | getUnique is strictly increasing and holds exactly the records of the named columns; an unknown name raises KeyError |
| QueryTable.CopyTable | table/querytable.py:4-22 | copyTable gives a table with no rows and the named (or all) columns' names, dtypes and shapes; an unknown column raises KeyError, and a non-empty selection from an empty table raises IndexError |
| StrippedTable.StripStep | src/stripped_table.py:15-24 | each pass of the loop strips one more column and touches no other |
| StrippedTable.StrippedTable.StripTable | src/stripped_table.py:10-24 | _stripTable keeps the columns and right-strips every string cell of every string column, in place |
| StrippedTable.StrippedTable.Read | src/stripped_table.py:26-33 | read wraps the loaded table and strips it |
| StrippedTable.StripMeaning | src/stripped_table.py:16-24 | a stripped string cell is a prefix of the original, the removed part is all whitespace, and nothing is left to strip; other cells are unchanged |
| StrippedTable.StripShape | src/stripped_table.py:10-24 | stripping keeps the number of rows and each row's length |
| StrippedTable.StripWellFormed | src/stripped_table.py:10-24 | stripping keeps every cell's type and shape |
| StrippedTable.StripIdempotent | src/stripped_table.py:10-24 | reading an already stripped table changes nothing |
| StrippedTable.StrippedCellUnpadded | src/stripped_table.py:10-24 | no cell of a stripped table has trailing whitespace |
| StrippedTable.ReadUnique | src/stripped_table.py:36-38 | getUnique on a read table is strictly sorted and none of its string cells ends in whitespace |
| StrippedTable.StrippedTable.constructor | src/stripped_table.py:33 | cls(table) wraps the loaded table with its columns and rows unchanged |
| Calibrators.WithUnitFactorsMeaning | gbtcal/calibrator.py:33-45 | the calibrator's table is the input with a FACTOR column of ones and every other column unchanged |
| Calibrators.FeedsForPolMeaning | gbtcal/calibrator.py:90-95 | the candidate feeds are sorted and are exactly the feeds of the rows carrying the polarization (every row for Avg) |
| Calibrators.CarriedPolListed | gbtcal/calibrator.py:106-110 | a carried polarization is among the table's polarizations, so the ValueError check after the selection never fires |
| Calibrators.FeedForPolDefined | gbtcal/calibrator.py:84-114 | getFeedForPol succeeds exactly when some row carries the polarization, and otherwise raises IndexError at feedsForPol[0] |
| Calibrators.FeedForPolChoice | gbtcal/calibrator.py:97-104 | the selected feed carries the polarization; it is the track feed when that carries it, and else the smallest feed that does |
| Calibrators.GroupLessIsStrictTotal | gbtcal/calibrator.py:251-253 | numpy's order on the five grouping columns is a strict total order |
| Calibrators.GroupsMeaning | gbtcal/calibrator.py:251-254 | the groupings are sorted, and are exactly the groupings occurring in the table |
| Calibrators.GroupReceptorsMeaning | gbtcal/calibrator.py:255-265 | the receptors of a grouping are those of its rows |
| Calibrators.GroupReceptorConflict | gbtcal/calibrator.py:265-268 | a grouping whose rows name two receptors raises ValueError |
| Calibrators.GroupReceptorUniform | gbtcal/calibrator.py:265-270 | a grouping whose rows share one receptor uses it |
| Calibrators.ApplyGroupsMeaning | gbtcal/calibrator.py:254-274 | the loop writes only FACTOR; it succeeds exactly when every grouping has a Tcal and then each grouping's rows hold its Tcal, while a failure is some grouping's Tcal error |
| Calibrators.TraditionalFactorsMeaning | gbtcal/calibrator.py:240-274 | Traditional findCalFactors succeeds exactly when every row's grouping has a Tcal, and then every row's FACTOR is its grouping's Tcal; only FACTOR changes |
| Calibrators.GroupSharesFactor | gbtcal/calibrator.py:255-274 | two rows of one grouping (the cal-on and cal-off rows) end with the same FACTOR |
| Calibrators.FirstMissing | gbtcal/calibrator.py:378-380 | the first row whose feed-and-polarization key has no gain |
| Calibrators.GainFactorsMeaning | gbtcal/calibrator.py:369-380 | the gains are applied exactly when every row's key has one, each row then holding the gain of its key; otherwise KeyError at the first row without one; only FACTOR changes |
| Calibrators.GainsSharedByPair | gbtcal/calibrator.py:378-380 | rows with the same feed and polarization get the same gain |
| Calibrators.GainKeysDistinct | gbtcal/calibrator.py:379 | str(FEED) + POLARIZE tells different feeds apart |
| Calibrators.ProcScansMeaning | gbtcal/calibrator.py:416-417 | the candidate scans are exactly the log entries at or before the scan with the procedure name |
| Calibrators.FindMostRecentProcScans | gbtcal/calibrator.py:406-425 | the method's loop builds the list of count slots whose trailing ones hold the most recent matches |
| Calibrators.MostRecentMeaning | gbtcal/calibrator.py:406-425 | the list is empty exactly without a match (or count 0); each filled slot holds a qualifying entry, filled slots trail the zeros and keep log order, and the last slot is the most recent match |
| Calibrators.WBandGains | gbtcal/calibrator.py:429-441 | WBand takes the gains of the most recent CALSEQ scan, or none without one |
| Calibrators.ArgusNoVaneScan | gbtcal/calibrator.py:452-456 | without a VANECAL scan all([]) is true and calSeqNums[0] raises IndexError |
| Calibrators.ArgusOneVaneScan | gbtcal/calibrator.py:452-459 | with one VANECAL scan the leading slot stays 0 and there are no gains |
| Calibrators.ArgusTwoVaneScans | gbtcal/calibrator.py:452-458 | with two or more VANECAL scans the gains come from the last two, vane then sky |
| Calibrators.FindCalFactorsMeaning | gbtcal/calibrator.py:134-136 | every class's findCalFactors writes only FACTOR; the base class and CalSeqCalibrator raise NotImplementedError; without gains FACTOR stays 1.0 |
| Calibrators.GainsMeaning | gbtcal/calibrator.py:369-380 | whatever gains are found, applying them changes only FACTOR |
| Pipeline.FeedPolLessIsStrictTotal | gbtcal/calibrator.py:145 | numpy's order on (FEED, POLARIZE) records is a strict total order |
| Pipeline.FeedPolsMeaning | gbtcal/calibrator.py:145 | the pairs are sorted and are exactly those occurring in the table |
| Pipeline.AttenuateRowsMeaning | gbtcal/calibrator.py:138-157 | the cal table has one row per (FEED, POLARIZE) pair, in order, each the pair's first FACTOR and its attenuation by the class's attenuator (CalDiodeAttenuate for Traditional and Ka, CalSeqAttenuate otherwise); it fails exactly when the table is empty or a pair's attenuation fails |
| Pipeline.AttenuatePairMeaning | gbtcal/calibrator.py:146-156 | a pair's cal-table row holds its first row's FACTOR and the attenuator's result on the pair's rows, and exists exactly when the attenuator succeeds |
| Pipeline.PairTableMeaning | gbtcal/calibrator.py:148 | the pair's rows are exactly the table rows of that feed and polarization |
| Pipeline.DontAttenuateMeaning | gbtcal/calibrator.py:159-163 | without attenuation the cal table holds exactly the cal-off rows' four columns |
| Pipeline.KaDontAttenuateMeaning | gbtcal/calibrator.py:281-299 | Ka without attenuation gives one row per feed in increasing order, the feed's cal-off signal minus reference data, and fails unless each feed has exactly one row of each |
| Pipeline.SigFeedTaMeaning | gbtcal/calibrator.py:305-326 | the track feed's temperature at one SIGREF needs exactly one cal-on and one cal-off row sharing FACTOR, and is then the diode formula on them |
| Pipeline.KaAttenuateMeaning | gbtcal/calibrator.py:328-361 | Ka attenuation gives the signal feed's row then the reference feed's, with the SIGREF 0 and SIGREF 1 temperatures of the track feed and each feed's own Tcal |
| Pipeline.SelectRows | gbtcal/calibrator.py:171-172 | a masked selection keeps exactly the rows meeting the condition |
| Pipeline.CalFeedsMeaning | gbtcal/calibrator.py:124-125 | the feed table's feeds are sorted and are exactly the cal table's feeds |
| Pipeline.Single | gbtcal/calibrator.py:178 | assigning a selection's DATA to a feed row works exactly for a one-row selection, and otherwise cannot be broadcast |
| Pipeline.FillFeedsMeaning | gbtcal/calibrator.py:165-178 | the feed table has one row per cal-table feed, in increasing order, holding what the step gives for that feed, and fails exactly when some feed's step fails |
| Pipeline.InterBeamAsWrittenFails | gbtcal/calibrator.py:180-182 | the inter-beam stage as written cannot produce data: three arguments go to a two-argument calibrate |
| Pipeline.FeedTableData | gbtcal/calibrator.py:184-188 | a feed's data in a filled feed table is the step's value for that feed |
| Pipeline.RawSelectsCalOff | gbtcal/calibrator.py:190-232 | with no stage, a non-Ka calibrator leaves its table alone and returns the DATA of a cal-off row of the polarization on the feed getFeedForPol selects |
| Pipeline.AverageIsMean | gbtcal/calibrator.py:173 | the inter-pol value is the sample-by-sample mean of the feed's two rows |
| Pipeline.InterPolThenInterBeam | gbtcal/calibrator.py:208-225 | with both stages each sample is the signal feed's polarization mean minus the reference feed's |
| Pipeline.BaseHasNoStages | gbtcal/calibrator.py:47-58 | the base Calibrator cannot run any stage: the properties are local to __init__, so none exists |
| Pipeline.Calibrator.constructor | gbtcal/calibrator.py:27-45 | the object holds a copy of the table with FACTOR 1.0 in every row |
| Pipeline.Calibrator.StoreTcals | gbtcal/calibrator.py:254-274 | the grouping loop leaves the rows the Traditional factor specification gives, changing only FACTOR |
| Pipeline.Calibrator.StoreGains | gbtcal/calibrator.py:378-380 | the row loop leaves the rows the gain specification gives, changing only FACTOR |
| Pipeline.Calibrator.FindCalFactors | gbtcal/calibrator.py:134-136 | findCalFactors of the object's class, as specified per class |
| Pipeline.Calibrator.Attenuate | gbtcal/calibrator.py:138-157 | the table and cal table attenuate leaves are those of the attenuation specification |
| Pipeline.Calibrator.DontAttenuate | gbtcal/calibrator.py:159-163 | the cal table is the specification's, including Ka's per-feed override |
| Pipeline.Calibrator.FillFeedTable | gbtcal/calibrator.py:170-178 | the loop over the feed table computes the feed-table specification |
| Pipeline.Calibrator.Calibrate | gbtcal/calibrator.py:190-232 | calibrate leaves the table and returns the data of the three-stage specification |
| Pipeline.Calibrator.ConvertPairs | gbtcal/calibrator.py:144-157 | the loop over the distinct (FEED, POLARIZE) pairs adds one attenuated row per pair, in order, or stops at the first error |
| Argus.Column | gbtcal/ArgusCalibration.py:36 | data[:, c] is column c of every row, and raises IndexError when some row is too short |
| Argus.GetGainMeaning | gbtcal/ArgusCalibration.py:44-50 | the gain map has exactly the keys 10X and 11X, and each gain turns its beam's warm-minus-cold median back into Twarm |
| Argus.GetGainDefined | gbtcal/ArgusCalibration.py:49 | with both scans readable the gains fail, as non-finite, exactly when a beam's warm and cold medians coincide |
| Argus.TwarmKelvin | gbtcal/ArgusCalibration.py:26-30 | Twarm is the header reading plus 273.15 |
| Argus.MediansMeaning | gbtcal/ArgusCalibration.py:32-42 | the medians exist exactly when there are rows and each has at least two columns, and are then the medians of the first two columns |
| Calibrate.ReceiverInfo | gbtcal/rcvr_table.py:45-46 | the receiver's rows are exactly the table rows with that M&C Name, in order |
| Calibrate.ValidateOptions | gbtcal/calibrate.py:91-103 | the options pass exactly when the receiver has a row whose options contain both modes; no row raises IndexError, a bad calMode and then a bad polMode raise ValueError |
| Calibrate.PolOptionMeaning | gbtcal/calibrate.py:29-40 | XL and YR become X and Y on linear data and L and R on circular data; data of neither kind raise ValueError |
| Calibrate.PolOptionIsPolarization | gbtcal/calibrate.py:33-37 | the option chosen for XL or YR is one of the four polarizations |
| Calibrate.StageFlags | gbtcal/calibrate.py:42-53 | conversion runs unless Raw, the inter-pol stage exactly for Avg, the inter-beam stage exactly for the two dual-beam modes |
| Calibrate.StageFlagsConsistent | gbtcal/calibrate.py:42-53 | the dual-beam modes always convert first, and Raw runs only the pol average |
| Calibrate.ClassNamedMeaning | gbtcal/calibrate.py:68-69 | getattr finds each calibrator class under its own name and under no other |
| Calibrate.Strategy | gbtcal/calibrate.py:56-75 | an explicit calibrator wins; otherwise the receiver's Cal Strategy names the class, and a missing row or unknown name raises ValueError |
| Calibrate.PlanMeaning | gbtcal/calibrate.py:23-78 | doCalibrate reaches the calibrator exactly when the options validate, the polarization option exists and a class is found, and then uses the modes' stage switches and the receiver's own strategy |
| Calibrate.UnknownReceiverIndexError | gbtcal/calibrate.py:91-93 | a receiver missing from the table fails with IndexError in validateOptions, before doCalibrate's own ValueError |
| Calibrate.CheckedOptions | gbtcal/calibrate.py:91-95 | the intended validateOptions agrees with the written one whenever the receiver is listed |
| Calibrate.DoCalibrateCheckedMeaning | gbtcal/calibrate.py:23-88 | with the intended check a missing receiver raises its ValueError, and a listed receiver gets exactly what doCalibrate gives |
| Calibrate.RunCalibrator | gbtcal/calibrate.py:80-88 | building the calibrator object, describe() and calibrate compute the doCalibrate specification |
| Calibrate.DescribeBase | gbtcal/calibrator.py:60-80 | describe() on the base Calibrator raises AttributeError before calibrate, whatever the modes; every other class goes on to calibrate |
| Calibrate.PolOption | gbtcal/calibrate.py:29-30 | Avg is passed on unchanged |
| Rcvr6892.CalPosStringMeaning | gbtcal/Rcvr68_92.py:246-250 | a code from 0 to 5 names its CALPOS value, anything else is Unknown |
| Rcvr6892.NumRowsMeaning | gbtcal/Rcvr68_92.py:259-263 | numrows is the number of timestamps, and positive exactly when there is a table |
| Rcvr6892.LastAtOrBefore | gbtcal/Rcvr68_92.py:394-428 | the reference answer of a time query: the last timestamp at or before the time, or -1 |
| Rcvr6892.LastIs | gbtcal/Rcvr68_92.py:394-428 | the reference answer is the only index with that property |
| Rcvr6892.LastSorted | gbtcal/Rcvr68_92.py:394-428 | on sorted timestamps every index up to the answer is at or before the time |
| Rcvr6892.BackwardSkipsEqualTimestamp | gbtcal/Rcvr68_92.py:411-418 | the backward search as written steps past a timestamp equal to the time: going back from 5 to 2 over 1, 2, 3 answers index 0, where a first query for 2 answers index 1 |
| Rcvr6892.QueryAsWritten | gbtcal/Rcvr68_92.py:394-428 | getIndexFromDMJD as written keeps the index in range; without a time or timestamps it answers -1 and leaves the cursor; otherwise it records the time and its index |
| Rcvr6892.BackwardAsWrittenInRange | gbtcal/Rcvr68_92.py:411-418 | the backward search as written stays at or below where it started |
| Rcvr6892.BackwardAgrees | gbtcal/Rcvr68_92.py:411-418 | the backward search as written and the intended one give the same row unless a timestamp above row 0, at or below the start, equals the time |
| Rcvr6892.QueryAsWrittenAgrees | gbtcal/Rcvr68_92.py:394-428 | getIndexFromDMJD as written gives the corrected answer and cursor except on a backward query for a time equal to a timestamp above row 0 and at or below the cursor's index |
| Rcvr6892.Query | gbtcal/Rcvr68_92.py:394-428 | a query keeps the index in range; without a time or timestamps it answers -1 and leaves the cursor; otherwise it records the time and its index |
| Rcvr6892.ForwardInRange | gbtcal/Rcvr68_92.py:402-410 | the forward search stays within the timestamps |
| Rcvr6892.BackwardInRange | gbtcal/Rcvr68_92.py:411-418 | the backward search stays at or below where it started |
| Rcvr6892.ForwardFinds | gbtcal/Rcvr68_92.py:402-410 | on sorted timestamps the forward search from a consistent cursor finds the last timestamp at or before the time |
| Rcvr6892.BackwardFinds | gbtcal/Rcvr68_92.py:411-422 | the intended backward search finds the last timestamp at or before the time |
| Rcvr6892.QueryIsLastAtOrBefore | gbtcal/Rcvr68_92.py:394-428 | on sorted timestamps a query from a consistent cursor answers the last timestamp at or before the time, whichever way the cursor moves, and leaves the cursor consistent |
| Rcvr6892.InitialConsistent | gbtcal/Rcvr68_92.py:47-48 | the initial cursor is consistent for positive timestamps |
| Rcvr6892.QueryRepeat | gbtcal/Rcvr68_92.py:424-428 | repeating a query gives the same index and the same cursor |
| Rcvr6892.MovingDefaults | gbtcal/Rcvr68_92.py:323-329 | manual scans never move; an auto scan without a time or a duration counts as moving |
| Rcvr6892.MovingWindow | gbtcal/Rcvr68_92.py:331-355 | an auto scan's motion is decided by the last rows at or before both ends of the window, with the -1 ends clamped to the first and last rows |
| Rcvr6892.MovingSpecInRange | gbtcal/Rcvr68_92.py:335-336 | isMoving keeps the cursor in range |
| Rcvr6892.PositionSpecInRange | gbtcal/Rcvr68_92.py:265-289 | getPosition keeps the cursor in range |
| Rcvr6892.PositionAtTime | gbtcal/Rcvr68_92.py:279-288 | a still auto scan is at the position of the last row at or before the time, or Unknown before the table |
| Rcvr6892.PositionQueriesAsWritten | gbtcal/Rcvr68_92.py:265-289 | on timestamps 1, 2, 3 of a still auto scan, a first getPosition(2.0, 17280 s) queries 1.9, 2.1 and then 2.0 backwards; as written that last query answers row 0, while the corrected getPosition answers row 1 |
| Rcvr6892.PositionManual | gbtcal/Rcvr68_92.py:270-276 | a manual scan is at its first table position, or at CALPOS without a table |
| Rcvr6892.LoadMeaning | gbtcal/Rcvr68_92.py:357-392 | a load temperature is the keyword's unless a row applies: the first for a manual scan, the last at or before the time for an auto scan |
| Rcvr6892.Rcvr68_92.constructor | gbtcal/Rcvr68_92.py:37-55 | the object starts with the cursor before any query |
| Rcvr6892.Rcvr68_92.GetIndexFromDMJD | gbtcal/Rcvr68_92.py:394-428 | the method's two loops move the cursor as the corrected query specifies |
| Rcvr6892.Rcvr68_92.IsMoving | gbtcal/Rcvr68_92.py:317-355 | the answer and cursor of the isMoving specification |
| Rcvr6892.Rcvr68_92.GetPosition | gbtcal/Rcvr68_92.py:265-289 | the answer and cursor of the getPosition specification |
| Rcvr6892.Rcvr68_92.GetTcold | gbtcal/Rcvr68_92.py:357-373 | TCOLD by the load specification |
| Rcvr6892.Rcvr68_92.GetTwarm | gbtcal/Rcvr68_92.py:375-392 | TWARM by the load specification |
| Rcvr6892.Rcvr68_92.AnyMoving | gbtcal/Rcvr68_92.py:351-354 | the loop answers whether any row in the range is moving |
| Rcvr6892.Rcvr68_92.GetLoad | gbtcal/Rcvr68_92.py:357-392 | the shared body of getTcold and getTwarm computes the load specification and keeps the object valid |
| CalSeqScans.ChannelsMeaning | gbtcal/CalSeqScan.py:44-47 | the channels are exactly the names of the rows' feeds and stripped polarizations |
| CalSeqScans.ChannelsDistinct | gbtcal/CalSeqScan.py:46-47 | with one-letter polarizations no channel is listed twice |
| CalSeqScans.FirstMatch | gbtcal/CalSeqScan.py:55-60 | the first row of the feed, polarization and phase, or -1 when there is none |
| CalSeqScans.GetRawPower | gbtcal/CalSeqScan.py:51-60 | the DATA of the first matching row; no match raises IndexError |
| CalSeqScans.PhasesMeaning | gbtcal/CalSeqScan.py:72-74 | the phases are the distinct (SIGREF, CAL) states of the rows, in increasing order |
| CalSeqScans.DataTypeLoads | gbtcal/CalSeqScan.py:278-287 | Cold1 puts feed 1 on the cold load and feed 2 on the warm one, Cold2 the reverse |
| CalSeqScans.OppositeLoads | gbtcal/CalSeqScan.py:282-284 | in either Cold position the two feeds see the two different loads |
| CalSeqScans.DataTypeCases | gbtcal/CalSeqScan.py:278-287 | positions without Cold pass through; another Cold name raises KeyError; a feed outside -1..2 raises IndexError |
| CalSeqScans.ParseChannelName | gbtcal/CalSeqScan.py:179-180 | a one-digit feed's channel parses back to the feed and the first polarization letter |
| CalSeqScans.ParseChannelTwoDigits | gbtcal/CalSeqScan.py:179-180 | a two-digit feed such as 10 does not parse back: 10X gives feed 1 and polarization 0 |
| CalSeqScans.Positions | gbtcal/CalSeqScan.py:189-190 | one position per start time, keeping the receiver's cursor in range |
| CalSeqScans.PositionStep | gbtcal/CalSeqScan.py:190 | each getPosition call gives the table's answer for its time and keeps the cursor consistent |
| CalSeqScans.PositionsMeaning | gbtcal/CalSeqScan.py:189-190 | with the corrected backward step, on an auto scan every position is the table's answer for its own time and the cursor only caches; the step as written makes an answer depend on the cursor (`Rcvr6892.PositionQueriesAsWritten`) |
| CalSeqScans.KeyIndex | gbtcal/CalSeqScan.py:193-197 | the bucket of a data type, or -1 when there is none |
| CalSeqScans.SamplesAt | gbtcal/CalSeqScan.py:193-197 | a bucket's samples are the samples of its type |
| CalSeqScans.AddSampleMeaning | gbtcal/CalSeqScan.py:193-197 | a sample joins its own type's list and no other, keeping the keys distinct |
| CalSeqScans.DataTypeErrors | gbtcal/CalSeqScan.py:278-287 | classification fails only with KeyError or IndexError |
| CalSeqScans.AutoDataSucceeds | gbtcal/CalSeqScan.py:189-197 | the auto pass succeeds exactly when every known position classifies and has a sample |
| CalSeqScans.AutoDataContents | gbtcal/CalSeqScan.py:189-197 | the buckets from sample i on extend those of the earlier samples |
| CalSeqScans.AutoBuckets | gbtcal/CalSeqScan.py:187-197 | each type's bucket holds, in time order, exactly the samples whose known position classifies as that type |
| CalSeqScans.BucketKeys | gbtcal/CalSeqScan.py:198 | a bucket exists exactly for the types with samples |
| CalSeqScans.TypedGrows | gbtcal/CalSeqScan.py:189-197 | one more known sample of a type adds one sample to it |
| CalSeqScans.TypedNonEmpty | gbtcal/CalSeqScan.py:189-197 | a type has samples exactly when some known sample classifies as it |
| CalSeqScans.AppendAutoMeaning | gbtcal/CalSeqScan.py:198-206 | the buckets join the end of the channel's list, an empty pass creates none, appending to a manual pair raises AttributeError, and other channels are untouched |
| CalSeqScans.Step | gbtcal/CalSeqScan.py:176-212 | a visit records its channel and keeps the cursor in range |
| CalSeqScans.Process | gbtcal/CalSeqScan.py:175-212 | the visits keep the cursor in range |
| CalSeqScans.ChannelPairs | gbtcal/CalSeqScan.py:176 | one visit per phase of the channel |
| CalSeqScans.ProcessCons | gbtcal/CalSeqScan.py:176 | a channel's visits are its first phase's step and then the rest |
| CalSeqScans.ProcessAppend | gbtcal/CalSeqScan.py:175-176 | running two lists of visits is running their concatenation, stopping at the first exception |
| CalSeqScans.ProcessChannels | gbtcal/CalSeqScan.py:178 | a successful scan records every visited channel once per phase, in order |
| CalSeqScans.ManualLastPhaseWins | gbtcal/CalSeqScan.py:207-212 | in a manual scan the channel keeps only its last phase's data, under the CALPOS type |
| CalSeqScans.CalSeqScan.constructor | gbtcal/CalSeqScan.py:83-96 | the scan starts with no channels and no data |
| CalSeqScans.CalSeqScan.InitData | gbtcal/CalSeqScan.py:123-124 | scanData is emptied |
| CalSeqScans.CalSeqScan.GetTwarm | gbtcal/CalSeqScan.py:126-131 | the receiver's TWARM without a time, or 0 without a receiver, leaving the receiver's cursor |
| CalSeqScans.CalSeqScan.AutoPass | gbtcal/CalSeqScan.py:187-197 | the integration loop builds the buckets of the auto specification and moves the receiver's cursor as the positions do |
| CalSeqScans.CalSeqScan.AppendBuckets | gbtcal/CalSeqScan.py:198-206 | the bucket loop updates scanData as the append specification says |
| CalSeqScans.CalSeqScan.Visit | gbtcal/CalSeqScan.py:177-212 | one visit changes the scan as the step specification says |
| CalSeqScans.CalSeqScan.VisitChannel | gbtcal/CalSeqScan.py:176-212 | the phase loop of a channel runs its visits in order |
| CalSeqScans.CalSeqScan.ProcessCalseqScan | gbtcal/CalSeqScan.py:164-212 | the DCR branch visits every channel and in it every phase, stopping at the first exception |
| CalResults.Minus | src/CalibrationResults.py:272 | numpy subtraction stays finite exactly when both operands are, and is then the difference |
| CalResults.Divide | src/CalibrationResults.py:272 | numpy division stays finite exactly when both operands are and the divisor is nonzero, and then multiplies back to the dividend |
| CalResults.ScaleAll | src/CalibrationResults.py:281 | gain * array scales every sample |
| CalResults.MedianScaledMeaning | src/CalibrationResults.py:281-284 | for a positive gain the system temperature is the gain times the median sample |
| CalResults.DetermineScansMeaning | src/CalibrationResults.py:178-182 | the sequence is procsize consecutive scans from scannum - procseqn + 1, and holds this scan exactly when 1 <= procseqn <= procsize, at position procseqn |
| CalResults.DetermineScansDistinct | src/CalibrationResults.py:178-182 | the scan numbers are strictly increasing, so none repeats |
| CalResults.Put | src/CalibrationResults.py:194 | storing a scan updates its entry; a new number joins the end of the dictionary order, a known one keeps its place |
| CalResults.Complete | src/CalibrationResults.py:169-172 | the completion loop keeps the scan set well formed |
| CalResults.CompleteMeaning | src/CalibrationResults.py:162-204 | completing keeps every scan already held and adds exactly the missing scan numbers whose scan is found and checks out at its position |
| CalResults.CompleteWithoutLookup | src/CalibrationResults.py:186-191 | when no scan can be found, completing adds nothing |
| CalResults.HaveAllMeaning | src/CalibrationResults.py:176 | for scans that belong to the sequence, equal counts mean every scan of the sequence is held |
| CalResults.CountPositive | src/CalibrationResults.py:238 | a channel appears in the channel list exactly when it is counted |
| CalResults.Copies | src/CalibrationResults.py:245-248 | a manual pair gathered n times is n copies of it |
| CalResults.AddChannelsSucceeds | src/CalibrationResults.py:238-248 | gathering succeeds exactly when every listed channel has scan data, and otherwise raises KeyError |
| CalResults.AddChannelsKeys | src/CalibrationResults.py:238-248 | gathering holds the channels that were there or were listed, and leaves unlisted ones alone |
| CalResults.GatheredStep | src/CalibrationResults.py:238-248 | one gathering step agrees with the channel's overall result |
| CalResults.AddChannelsListed | src/CalibrationResults.py:238-248 | an auto channel holds its list and a manual channel gains its pair once per listing |
| CalResults.GatherColdLoads | src/CalibrationResults.py:232-235 | only Cold scans contribute Twarm and Tcold readings, one each |
| CalResults.OutcomeLoads | src/CalibrationResults.py:222-251 | Twarm and Tcold are averaged over exactly the Cold scans' readings |
| CalResults.ChannelTableMeaning | src/CalibrationResults.py:262-264 | a data type is in a channel's table exactly when some entry has it, and holds its last entry |
| CalResults.GainMeaning | src/CalibrationResults.py:266-277 | without both loads the gain is 1.0; with both and distinct medians the gain turns Vwarm - Vcold back into Twarm - Tcold |
| CalResults.SkyTsysMeaning | src/CalibrationResults.py:279-288 | a channel's Tsys entries are keyed by the sky positions it has data for, each the median of gain times that data |
| CalResults.TsysMapMeaning | src/CalibrationResults.py:261-288 | a channel has a Tsys for exactly the sky positions it has data for, the median of its gain times that data |
| CalResults.GainMapStep | src/CalibrationResults.py:276-277 | calibrating one more channel adds its gain |
| CalResults.TsysKeysStep | src/CalibrationResults.py:279-284 | calibrating one more channel adds its sky keys |
| CalResults.TsysMapStep | src/CalibrationResults.py:279-284 | calibrating one more channel adds its Tsys values |
| CalResults.TsysDataMapStep | src/CalibrationResults.py:279-284 | calibrating one more channel adds its Tsys arrays |
| CalResults.AccumulatedStep | src/CalibrationResults.py:261-288 | calibrating one more channel stores its gain and merges in its sky entries |
| CalResults.ProjectNameMeaning | src/CalibrationResults.py:138 | the project name is the last path component |
| CalResults.CalibrationResults.constructor | src/CalibrationResults.py:34-35 | a new object starts from a clean slate |
| CalResults.CalibrationResults.InitObservation | src/CalibrationResults.py:37-49 | InitObservation clears every field but the scan numbers |
| CalResults.CalibrationResults.AddScan | src/CalibrationResults.py:184-194 | addScan adds a found scan that checks out |
| CalResults.CalibrationResults.MakeCalObservation | src/CalibrationResults.py:162-176 | the set is completed only when incomplete, and the answer is whether it now holds every scan |
| CalResults.CalibrationResults.GetCalSeqData | src/CalibrationResults.py:206-252 | the gathered channel data are the specification's, Twarm and Tcold become the means over the Cold scans, and an error leaves them alone |
| CalResults.CalibrationResults.AddSkies | src/CalibrationResults.py:279-288 | the sky loop adds exactly the channel's Tsys entries |
| CalResults.CalibrationResults.CalibrateChannel | src/CalibrationResults.py:262-288 | one channel's gain and Tsys entries are stored |
| CalResults.CalibrationResults.CalcGainTsys | src/CalibrationResults.py:254-289 | calcGainTsys stores every channel's gain and Tsys and sets calibrated, or fails leaving the results alone |
| CalResults.CalibrationResults.CalibrateChannels | src/CalibrationResults.py:261 | the channel loop accumulates every channel |
| CalResults.CalibrationResults.SaveData | src/CalibrationResults.py:291-301 | calData holds the project, backend, scans, gains and Tsys |
| CalResults.CalibrationResults.MakeCalScan | src/CalibrationResults.py:134-160 | the scan numbers of the sequence are set, a new sequence starts a clean slate, the scan joins, the set is completed and a complete set is calibrated and saved; an empty sequence raises IndexError at scannums[0] |
| CalResults.CalibrationResults.Conclude | src/CalibrationResults.py:154-160 | the set is completed, and a complete one is calibrated and saved |
| CalResults.CalibrationResults.CalibrateAndSave | src/CalibrationResults.py:155-158 | a complete set is calibrated and saved |
| CalResults.CalibrationResults.Arrive | src/CalibrationResults.py:146-153 | a new first scan number clears the slate, and the scan joins the set |
| CalResults.CalibrationResults.BuildChannelTable | src/CalibrationResults.py:262-264 | the loop over a channel's entries builds the channel table, the last entry of each data type winning |
| CalResults.CalibrationResults.GatherChannels | src/CalibrationResults.py:238-248 | the loop over a scan's channels computes the gathering specification and keeps the list of gathered channels distinct and complete |
| SrcCalibrators.OneDistinct | src/Calibrators.py:197-199 | a column has a single distinct value exactly when it is non-empty and constant |
| SrcCalibrators.KaMapsInverse | src/Calibrators.py:315-316 | Ka's feed-to-polarization and polarization-to-feed maps are inverse to each other, and defined on R, L and on feeds 1, 2 only |
| SrcCalibrators.FreqForDataMeaning | src/Calibrators.py:180-205 | getFreqForData succeeds exactly for a valid polarization carried by rows of the feed that share one CENTER_SKY, which it returns; Ka looks in the polarization's own feed and raises KeyError for X and Y |
| SrcCalibrators.Difference | src/Calibrators.py:128 | signal minus reference is elementwise, and series of different lengths do not broadcast |
| SrcCalibrators.RawPowerMeaning | src/Calibrators.py:124-178 | the raw power needs exactly one row in the signal phase, (0, 0) when there are several phases; with a (1, 0) phase it also needs one reference row and is signal minus reference, else the signal alone |
| SrcCalibrators.RawPowerOfEmpty | src/Calibrators.py:132-136 | a table without rows has no phase, so phases[0] raises IndexError |
| SrcCalibrators.TraditionalTotalPowerMeaning | src/Calibrators.py:256-301 | Traditional total power needs exactly one cal-on and one cal-off row with equal FACTOR in the SIGREF 0 phase, and is the antenna-temperature formula on them |
| SrcCalibrators.TraditionalRecovers | src/Calibrators.py:256-260 | counts following the diode model convert back to the sky temperatures |
| SrcCalibrators.CalSeqTotalPowerMeaning | src/Calibrators.py:440-460 | CalSeq total power needs exactly one cal-off row, and each sample is its gain times the sample's distance from the median |
| SrcCalibrators.KaIgnoresFeed | src/Calibrators.py:318-337 | Ka's lookups depend on the polarization only, not on the feed passed in |
| SrcCalibrators.Column | src/Calibrators.py:86 | sample j of every series |
| SrcCalibrators.PolMean | src/Calibrators.py:86 | the polarization mean exists exactly for a non-empty list of equally long series, and has their length |
| SrcCalibrators.PolMeanSingle | src/Calibrators.py:86 | the mean of one polarization is its own power |
| SrcCalibrators.PolMeanPair | src/Calibrators.py:86 | two polarizations average sample by sample, in either order |
| SrcCalibrators.FeedTotals | src/Calibrators.py:65-86 | a successful loop holds every listed feed and every earlier entry |
| SrcCalibrators.FeedTotalsStep | src/Calibrators.py:65-86 | one step stores one feed's total, or stops at its error |
| SrcCalibrators.FeedTotalsMeaning | src/Calibrators.py:65-86 | the loop succeeds exactly when every feed's total does, and then holds each listed feed's total and otherwise the earlier entries |
| SrcCalibrators.DoMathChecks | src/Calibrators.py:31-57 | doMath raises ValueError for a polarization outside X, Y, L, R, and for a track beam that is not a feed |
| SrcCalibrators.DoMathTrackFeed | src/Calibrators.py:59-97 | without a reference beam the result is the track feed's mean power |
| SrcCalibrators.DoMathDualBeam | src/Calibrators.py:86-122 | with a reference beam, outside Ka, the table must have exactly two feeds and the result is the signal feed's mean power less the reference feed's |
| SrcCalibrators.DualBeamOfTotals | src/Calibrators.py:86-122 | the dual-beam end for any per-feed total defined on both feeds |
| SrcCalibrators.DoMathSpecSteps | src/Calibrators.py:29-96 | doMath is the checks, the feed loop and the end, stopping at the first error |
| SrcCalibrators.FinishDualBeam | src/Calibrators.py:99-122 | determineTrackFeed picks the two feeds with the track beam as signal, and calibrateDualBeam subtracts their totals |
| SrcCalibrators.SinglePolTotal | src/Calibrators.py:43-80 | a named polarization's total is its own power |
| SrcCalibrators.BeamSwitchedMeaning | src/Calibrators.py:341-421 | the beam-switched result is the signal feed's SIGREF 0 temperature less its SIGREF 1 temperature, the latter with the reference feed's Tcal, under the checks on rows and FACTOR |
| SrcCalibrators.FilterUnchanged | src/Calibrators.py:361-366 | a selection that keeps none of a feed's rows does not see their counts |
| SrcCalibrators.RefTcalUnchanged | src/Calibrators.py:416 | the reference Tcal is the first FACTOR of the reference feed, whatever its counts |
| SrcCalibrators.KaSelectionUnchanged | src/Calibrators.py:359-366 | the signal feed's lookup does not see another feed's counts |
| SrcCalibrators.BeamSwitchedIgnoresReferenceCounts | src/Calibrators.py:341-421 | the reference feed's counts never reach the beam-switched result: only its Tcal does |
| SrcCalibrators.BeamSwitchedNeedsKaFeed | src/Calibrators.py:354-357 | a signal feed other than 1 or 2 raises KeyError |
| SrcCalibrators.CalibrateMeaning | src/Calibrators.py:207-217 | without gains the calibration works on FACTOR 1.0 and never consults the receiver calibration or gains; the base class cannot compute gains |
| SrcCalibrators.WorkTable.constructor | src/Calibrators.py:208-213 | the working table is a copy with FACTOR 1.0 |
| SrcCalibrators.WorkTable.StoreTcals | src/Calibrators.py:221-254 | Traditional findCalFactors leaves the rows of the Traditional factor specification |
| SrcCalibrators.WorkTable.StoreGains | src/Calibrators.py:428-438 | CalSeq findCalFactors leaves the rows of the gain specification |
| SrcCalibrators.FindCalFactors | src/Calibrators.py:221-254 | findCalFactors of each class on the working table |
| SrcCalibrators.FeedPower | src/Calibrators.py:67-84 | the inner loop computes one feed's polarization mean |
| SrcCalibrators.PolPowers | src/Calibrators.py:67-78 | the loop over the polarizations appends one power per polarization, in order, or stops at the first error |
| SrcCalibrators.FeedLoop | src/Calibrators.py:65-84 | the outer loop computes the per-feed totals |
| SrcCalibrators.DoMath | src/Calibrators.py:29-96 | doMath returns the specification's result and stores the totals in the table's meta |
| SrcCalibrators.Calibrate | src/Calibrators.py:207-217 | calibrate computes the calibration specification |
| DcrCalibrate.KeyFeeds | dcr_calibrate.py:116 | the distinct feeds of the keys, empty only without keys, led by the first key's feed |
| DcrCalibrate.KeyPols | dcr_calibrate.py:40 | the distinct polarizations of the keys, led by the first key's |
| DcrCalibrate.KeyFreqs | dcr_calibrate.py:105-106 | the distinct frequencies of the keys, led by the first key's |
| DcrCalibrate.DedupHead | dcr_calibrate.py:19 | list(set(...)) of a non-empty list is non-empty and starts with the first element |
| DcrCalibrate.SupportedModes | dcr_calibrate.py:7-28 | Raw always; TotalPower exactly with more than one phase; DualBeam exactly with more than one phase and more than one feed, in that order |
| DcrCalibrate.DefaultModeIsHighest | dcr_calibrate.py:46-48 | the default mode is the most capable one the keys allow |
| DcrCalibrate.PolKey | dcr_calibrate.py:63-71 | X and L map to XL, Y and R to YR, anything else raises KeyError |
| DcrCalibrate.PolKeyPairs | dcr_calibrate.py:63-71 | two polarizations share a key exactly when they are X and L, or Y and R |
| DcrCalibrate.CalibrateTotalPowerMeaning | dcr_calibrate.py:81-90 | total power needs both phase entries (else KeyError), and the cal-on entry's Tcal is overwritten and plays no part |
| DcrCalibrate.CalibrateTotalPowerRecovers | dcr_calibrate.py:74-90 | counts following the diode model convert back to the sky temperatures |
| DcrCalibrate.CalibrateDualBeamMeaning | dcr_calibrate.py:93-98 | the difference needs the totals of feeds 1 and 2; any track beam but 1 gives the negation of track beam 1 |
| DcrCalibrate.RawModeIsTotalPower | dcr_calibrate.py:117-133 | Raw mode calibrates exactly as TotalPower mode does |
| DcrCalibrate.SingleFeedTotalPower | dcr_calibrate.py:104-131 | outside DualBeam with a named polarization the result is the total power of the first key's feed at the first frequency |
| DcrCalibrate.CalibrateSpecSteps | dcr_calibrate.py:101-133 | calibrate runs the feed loop at the first frequency over the chosen feeds, then picks its result |
| DcrCalibrate.DualBeamOfTotals | dcr_calibrate.py:130-133 | the dual-beam end reads only the totals of feeds 1 and 2 |
| DcrCalibrate.DualBeamMissingFeed | dcr_calibrate.py:93-98 | without feed 1 or feed 2 the dual-beam end raises KeyError |
| DcrCalibrate.DualBeamReadsOneAndTwo | dcr_calibrate.py:93-98 | the difference depends on feeds 1 and 2 only |
| DcrCalibrate.DualBeamCalibration | dcr_calibrate.py:101-133 | DualBeam mode over two or more feeds gives the difference of feeds 1 and 2 |
| DcrCalibrate.Calibrate | dcr_calibrate.py:101-133 | the two nested loops compute the calibrate specification |
| DcrCalibrate.PolPowers | dcr_calibrate.py:124-128 | the inner loop computes one feed's polarization mean |
| DcrCalibrate.CalibrateDcrData | dcr_calibrate.py:31-60 | the checks and defaults, then calibrate, computing the calibrateDcrData specification |
| DcrCalibrate.CalibrateDcrDataMeaning | dcr_calibrate.py:35-52 | an unsupported mode and an absent polarization raise ValueError, and a map without keys has no polarization to pick |
| DcrCalibrate.CalibrateDcrDataDefaults | dcr_calibrate.py:46-58 | with neither given the mode is the highest supported, the polarization the first key's, and the track beam 1 |
| DcrDecodeAstropy.AxisIndex | dcr_decode_astropy.py:109 | a negative axis index counts from the end and lands inside the axis |
| DcrDecodeAstropy.CalStateRowsMeaning | dcr_decode_astropy.py:105-111 | the inner loop adds one row per CAL state with its DATA slice, or stops with IndexError exactly when a state or the port is off its axis |
| DcrDecodeAstropy.PortsRowsErrors | dcr_decode_astropy.py:103-111 | the loops raise IndexError exactly when some (port, CAL state) pair names no DATA slice |
| DcrDecodeAstropy.PortsRowsLayout | dcr_decode_astropy.py:103-111 | the rows are port-major, one per (port, CAL state), the port shifted to 1-based, each with DATA[..., portIndex, calState] |
| DcrDecodeAstropy.CalStateRowsStop | dcr_decode_astropy.py:105-111 | after the inner loop has raised, later CAL states add nothing |
| DcrDecodeAstropy.PortsRowsStop | dcr_decode_astropy.py:103-111 | after the outer loop has raised, later ports add nothing |
| DcrDecodeAstropy.PortTable.constructor | dcr_decode_astropy.py:98 | the port table starts empty |
| DcrDecodeAstropy.MapDcrDataToPort | dcr_decode_astropy.py:98-112 | the table gains, in place, exactly the rows of the loops, and keeps those appended before an IndexError |
| DcrDecodeAstropy.AppendCalStates | dcr_decode_astropy.py:105-111 | the inner loop appends, in place, one row per CAL state of one port with its DATA slice, and stops with IndexError at the first missing slice |
| DcrDecodeAstropy.StatesCheckedPhases | dcr_decode_astropy.py:133-144 | STATE tables that pass the CAL and SIGREF checks give non-empty port, SIGREF and CAL axes |
| DcrDecodeAstropy.StateAxesFitMeaning | dcr_decode_astropy.py:230-258 | the reshaped DATA can be indexed by every SIGREF and CAL value exactly when both the values 0 occur |
| DcrDecodeAstropy.ConsolidateFitsData | dcr_decode_astropy.py:121-267 | bad CAL, then bad SIGREF values raise ValueError; no DCR IF rows give None; otherwise the table exactly when the reshape fits, the axes fit and every phase is unambiguous, with IndexError or ValueError otherwise |
| DcrDecodeAstropy.ConsolidateChecked | dcr_decode_astropy.py:198-267 | once the STATE checks have passed and there are DCR rows, the result is Ok exactly when the reshape fits, the axes fit and every phase is unambiguous, fails only with IndexError or one of the two ValueErrors, and is then the skeleton with the loop's DATA |
| DcrDecodeAstropy.NumUniqueOne | dcr_decode_astropy.py:375-385 | one distinct value means a non-empty column whose values agree |
| DcrDecodeAstropy.StrippedMatchingMeaning | dcr_decode_astropy.py:335-339 | the astropy getTcal's mask keeps exactly the rows whose FEED matches and whose right-stripped RECEPTOR and POLARIZE match |
| DcrDecodeAstropy.StrippedMatchingAgrees | dcr_decode_astropy.py:325-350 | on a table without trailing blanks in RECEPTOR and POLARIZE, the astropy mask selects what decode's exact mask selects, so both getTcals agree |
| DcrDecodeAstropy.RcvrTcalStrips | dcr_decode_astropy.py:335-339 | a RECEPTOR stored as "R1 " still gives receptor R1 a Tcal of 1 here, where decode's exact mask selects nothing and raises IndexError |
| DcrDecodeAstropy.FeedPolRows | dcr_decode_astropy.py:371-373 | the rows of the feed whose right-stripped POLARIZE is the polarization |
| DcrDecodeAstropy.CalRows | dcr_decode_astropy.py:392-403 | the rows of one CAL state |
| DcrDecodeAstropy.FeedCheckedMeaning | dcr_decode_astropy.py:375-385 | the five asserts pass exactly when the rows are non-empty and agree on FEED, POLARIZE, RECEPTOR, CENTER_SKY, BANDWDTH and HIGH_CAL |
| DcrDecodeAstropy.CheckedPowerMeaning | dcr_decode_astropy.py:375-410 | rows that do not agree raise AssertionError; agreeing rows with one CAL value give None; otherwise the calibration's outcome |
| DcrDecodeAstropy.FeedPowerComputed | dcr_decode_astropy.py:325-408 | the feed's power is the antenna temperature of its flattened cal-on and cal-off DATA with the Tcal of its first row, or the Tcal lookup's error |
| DcrDecodeAstropy.FeedPowersStep | dcr_decode_astropy.py:370-410 | each feed's outcome stops the loop on an error or None, or stores its power |
| DcrDecodeAstropy.FeedPowersMeaning | dcr_decode_astropy.py:369-410 | the loop gives a map exactly when every feed gives a power, and the map is the starting map with each feed's power |
| DcrDecodeAstropy.FeedPowersNone | dcr_decode_astropy.py:398-400 | the loop gives None exactly when the first feed without a power gives None |
| DcrDecodeAstropy.FeedPowerNone | dcr_decode_astropy.py:375-400 | a feed gives None exactly when its rows pass the asserts and hold one CAL value |
| DcrDecodeAstropy.MultiFeedNone | dcr_decode_astropy.py:363-410 | calibrateMultiFeed returns None exactly when some feed after calibrated ones holds a single CAL value |
| DcrDecodeAstropy.BeamResultMeaning | dcr_decode_astropy.py:412-446 | SRFEED columns that disagree raise AssertionError; one feed gives its power; two give signal less reference; more raise TypeError |
| DcrDecodeAstropy.TrackBeamSwaps | dcr_decode_astropy.py:426-443 | a track beam equal to SRFEED2, like none, keeps SRFEED2 as signal; any other swaps the feeds and negates the difference |
| DcrDecodeAstropy.MultiFeedCombines | dcr_decode_astropy.py:412-446 | when every feed is calibrated the result is that one feed's power or the signal-less-reference difference, and the error cases otherwise |
| DcrDecodeAstropy.CalibrateMultiFeed | dcr_decode_astropy.py:363-446 | the loop over the table's feeds computes the calibrateMultiFeed specification |
| DcrDecodeAstropy.CalibrateDcrDataMeaning | dcr_decode_astropy.py:449-467 | more than one receiver, frequency or bandwidth raises AssertionError; otherwise calibrateMultiFeed without a track beam |
| DcrDecodeAstropy.CalibrateDcrData | dcr_decode_astropy.py:449-467 | computes the calibrateDcrData specification, ignoring the beam argument |
| DcrDecodeAstropy.StripAll | dcr_decode_astropy.py:575 | each polarization is stripped on both sides |
| DcrDecodeAstropy.PolPowersStep | dcr_decode_astropy.py:586-594 | each polarization looks up its key (KeyError first), calibrates, and stores a power under (mode, key) |
| DcrDecodeAstropy.PolPowersErrors | dcr_decode_astropy.py:586-594 | the loop succeeds exactly when every polarization has a key and calibrates; otherwise the first failing one gives the error |
| DcrDecodeAstropy.PolPowersKeys | dcr_decode_astropy.py:586-594 | the dictionary holds exactly the starting keys and those of polarizations with a power, and no other value changes |
| DcrDecodeAstropy.PolPowersOwn | dcr_decode_astropy.py:586-594 | a polarization with a key of its own finds its power under that key |
| DcrDecodeAstropy.PairMean | dcr_decode_astropy.py:601 | the mean exists exactly when the lengths agree, and ValueError otherwise |
| DcrDecodeAstropy.PairMeanMeaning | dcr_decode_astropy.py:597-602 | the average is symmetric, idempotent and lies between the two powers elementwise |
| DcrDecodeAstropy.DefaultPolsResult | dcr_decode_astropy.py:566-606 | the keys carry the table's mode and XL, YR or Avg; Avg is present exactly when the first two polarizations have a power, and is their mean |
| DcrDecodeAstropy.CalibrateDefaultDcrPolarizations | dcr_decode_astropy.py:566-606 | computes the calibrateDefaultDcrPolarizations specification over the consolidated table |
| DcrDecodeAstropy.CalibratePols | dcr_decode_astropy.py:586-594 | the loop over the polarizations computes the dictionary specification, stopping at the first KeyError or failed calibration |
| DcrDecodeAstropy.AddAverage | dcr_decode_astropy.py:597-602 | adds the Avg entry exactly as the averaging specification says |
| ProjFinder.YearAbbrevMeaning | gbtcal/test/projfinder/projFinder.py:276-280 | the abbreviation is the year modulo 100, and negative years raise ValueError |
| ProjFinder.YearAbbrevExamples | gbtcal/test/projfinder/testProjFinder.py:17-27 | 2017, 10123, 0 and 17 abbreviate to 17, 23, 0 and 17; -2017 is refused |
| ProjFinder.YearIsValidMeaning | gbtcal/test/projfinder/projFinder.py:283-288 | a year is valid exactly when it lies in 2000..this year or in 0..this year modulo 100 |
| ProjFinder.YearIsValidExamples | gbtcal/test/projfinder/testProjFinder.py:31-39 | 2017 is valid and 1900 and next year are not, for any current year from 2017 on |
| ProjFinder.ScanLogEntryMeaning | gbtcal/test/projfinder/projFinder.py:258-265 | a scan row gives two empty names; any other path gives MANAGER and FITSNAME exactly when it splits into four pieces, and is then rebuilt from them |
| ProjFinder.FourPieces | gbtcal/test/projfinder/projFinder.py:260 | a path that splits on / into four pieces is exactly those pieces joined by /, and none of them holds / |
| ProjFinder.ParseScanLog | gbtcal/test/projfinder/projFinder.py:253-269 | the two added columns agree row by row with the split, or the first bad row raises ValueError |
| ProjFinder.SearchArgsMeaning | gbtcal/test/projfinder/projFinder.py:143-159 | searchAll turns the sources on and clears the years; the search fails with ValueError exactly when both data kinds are off or the semester does not match |
| ProjFinder.SemesterExamples | gbtcal/test/projfinder/projFinder.py:47 | "17A" and "09D" match the semester pattern, "17E", "2017A" and "1A" do not |
| Ordering.SortedUniqueProperties | dcr_decode_astropy.py:211-213 | numpy.unique gives the distinct values, strictly ascending |
| Ordering.Dedup | dcr_decode_astropy.py:575 | list(set(...)) holds each value of the column exactly once |
| RealSeq.SortProperties | gbtcal/converter.py:40 | the sort behind numpy.median is ascending and a permutation |
| RealSeq.MedianMap | gbtcal/converter.py:40 | the median commutes with an increasing map that preserves means |
| RealSeq.MedianBounded | gbtcal/converter.py:40 | the median lies between any lower and upper bound of the samples |
| Text.RStripShape | src/stripped_table.py:11-24 | right-stripping keeps a prefix, removes only whitespace and leaves none at the end |
| Text.SplitJoin | gbtcal/test/projfinder/projFinder.py:260 | joining the pieces of a split on '/' gives the path back, and no piece holds '/' |
| Wrappers.CollectMeaning | dcr_calibrate.py:124-128 | a loop of fallible steps succeeds exactly when every step does, appending one result per element in order, and otherwise fails with the first error |

## Left out

- File and FITS input is not modelled. These become parameters: `getFitsForScan`, `getRcvrCalTable`, `getAntennaTrackBeam`, `_getScanProcedures`, `getScanIndexOfObservation`, `getGOFits`, the receiver table file and the Tcold configuration. The model does not read or write any file.
- Output is not modelled: `saveTextFile`, `eprint`, `print`, `warnings`, the messages of logging and `describe()`, and the `ipdb.set_trace()` breakpoint that `_getCalData` reaches before its ValueError (gbtcal/dcrtable.py:259; `DcrTable.GetCalData` raises the ValueError directly). Three of these evaluate expressions that can raise, and the model keeps those exceptions:
  - the debug line of `CalDiodeConverter.getAntennaTemperature` reads `Ta[0]` and `Ta[-1]`, so empty DATA raises IndexError (`Converter.CalDiodeTotalPower`). The calibrators attenuate with `CalDiodeAttenuate` instead (gbtcal/calibrator.py:15, 236), whose debug line (gbtcal/attenuate.py:40) indexes nothing, so there empty DATA gives an empty array (`Attenuation.CalDiodeTotalPower`);
  - the final debug line of `Calibrator.calibrate` reads `data[0]` and `data[-1]` (`Pipeline.Calibrator.Calibrate`);
  - `describe()` reads `self.attenuator`, which the base `Calibrator` never defines: its properties are local to `__init__`, so it raises AttributeError (`Calibrate.DescribeBase`).
- The command-line entry points are not modelled: `main`, `parseArgs` and argparse's `choices`. For that reason `Constants.AllValuesOf` has no caller in the model.
- The project finder's directory walks are not modelled: globbing, `getPathsWithinYearRange`, `getArchive*`, `getGbtdataPaths`, `getDirs` and `searchForScan`. All of them are file-system I/O.
- The current date is a parameter of `ProjFinder.YearIsValid`.
- Python sets have no defined iteration order. The model takes first-occurrence order everywhere: `Backend.channels` in `CalSeqScan.py`, `list(set(...))` in `dcr_calibrate.py`, and the polarizations in `dcr_decode_astropy.py`.
- numpy arrays are modelled as `seq<real>`, and floating point as exact `real` arithmetic. An infinite or NaN outcome stops the computation with the error `NonFinite` instead of propagating.
- numpy broadcasting of length-1 arrays is not modelled. Arrays of unequal length give `ValueError`. A `(1, n)` array is modelled as its row.
- numpy's `reshape` on a table with no integrations is modelled only through the sizes it checks.
- Exception messages are abbreviated. The kind of each exception is kept.
- An exception leaves the Python object partly updated. The model returns the error and keeps no such partial state.
- The Astropy table is modelled as the columns the calibration reads. The consolidated `DcrDecodeAstropy.DataRow` leaves out the columns it never reads after the asserts.
- `Calibrate.RunCalibrator` models `doCalibrate` called without keyword arguments. `calibrate()` passes `calseq` (gbtcal/calibrate.py:106-120), and `doCalibrate` forwards it through `**kwargs` (gbtcal/calibrate.py:85) to `Calibrator.__init__` (gbtcal/calibrator.py:27-30), which takes no such argument. Every run through `calibrate()` therefore raises TypeError. `calibrate()` itself reads files and is not modelled.
- `Pipeline.Calibrator.Calibrate`: `interBeamCalibrate` passes three arguments (gbtcal/calibrator.py:182) to `BeamSubtractionDBA.calibrate(self, rawTable, feedTable)`, which takes two (gbtcal/interbeamops.py:13). The model runs the intended beam subtraction, and `Pipeline.InterBeamAsWrittenFails` states the as-written behaviour.
- `DcrCalibrate.CalibrateTotalPowerMeaning`: the cal-on entry's Tcal is overwritten before use, as in the source. The stated result therefore depends only on the cal-off entry's Tcal.
- `DcrCalibrate.RawModeIsTotalPower`: `Raw` mode has no branch of its own in `calibrate`, so it calibrates as TotalPower. The model keeps this.
- `src/Calibrators.py` defines `getGains` twice. Only the second definition takes effect, and only that one is modelled.
- `SrcCalibrators.FinishDualBeam`: `determineTrackFeed` performs the same computation as `getSigAndRefFeeds`. Its `len(feeds > 2)` test is always true and only prints a warning, which is not modelled.
- `CalSeqScans.ParseChannelName`: the round trip is stated for one-digit feeds only. For a two-digit feed the source reads the second digit as the polarization, which `CalSeqScans.ParseChannelTwoDigits` states.
- The Spectrometer and VEGAS branch of `processCalseqScan` is not modelled. The calculation is DCR-only.
- `Rcvr68_92.getPol` and the text parsing in `readInfo` are not modelled. The receiver's table arrives as parsed values.
- `Rcvr6892.Rcvr68_92.GetIndexFromDMJD`, `Rcvr6892.Rcvr68_92.IsMoving`, `Rcvr6892.Rcvr68_92.GetPosition`, `Rcvr6892.Rcvr68_92.GetTcold`, `Rcvr6892.Rcvr68_92.GetTwarm`, `Rcvr6892.Rcvr68_92.GetLoad`, `Rcvr6892.MovingWindow`, `Rcvr6892.PositionAtTime`, `Rcvr6892.LoadMeaning`, `CalSeqScans.PositionStep`, `CalSeqScans.PositionsMeaning` and `CalSeqScans.CalSeqScan.AutoPass` use the corrected backward step (`Rcvr6892.Query`). The step as written (gbtcal/Rcvr68_92.py:411-418) is `Rcvr6892.QueryAsWritten`. The two differ only on a backward query for a time equal to a timestamp above row 0 (`Rcvr6892.QueryAsWrittenAgrees`); there the source answers the row below. getPosition makes such a query whenever its time equals a timestamp: isMoving's stop query leaves the cursor at dmjd + tint/2, so getPosition's own query for dmjd goes backwards (`Rcvr6892.PositionQueriesAsWritten`).
- `Rcvr6892.WellFormed` describes a complete read. `readInfo` swallows any exception part way through its read, which can leave columns of unequal length; the model does not represent such a partial read.
- `calibrateDefaultDcrData` re-reads the FITS files for every polarization. The model calibrates the one consolidated table it is given.
- `ProjFinder.SemesterMatches`: `\d` is taken as the ASCII digits only, where Python's `re` also accepts other Unicode digits.
- A `None` semester in `search` is modelled as the empty string. The two behave the same there.
- `DcrDecodeAstropy.BeamResult`: the `numFeeds == len(mapFeedToData)` assert always holds once the loop has calibrated every feed. It is not modelled as a separate check.
- The `DcrDecodeAstropy` consolidation does not check the IF-port subset condition, which only prints a warning.
- `Decode.Tcal` is getTcal as written. `Decode.CorrectedTcal` is the version with the corrected histogram area, and the unconditional bound is proved only for it (`Decode.CorrectedTcalBounds`). Every calibration stage uses the as-written `Decode.Tcal`:
  - `Calibrators.GroupTcal`;
  - `Pipeline.Calibrator.StoreTcals`;
  - `SrcCalibrators.WorkTable.StoreTcals`;
  - `DcrDecodeAstropy.RcvrTcal`.
- `SrcCalibrators.WorkTable.StoreTcals` uses `Decode.Tcal`. `src/Calibrators.py` imports `getTcal` from a module `dcr_decode`, which is not part of this model.
- `Decode.TcalBounds`: the bound is stated only where the start search stops inside the band. Elsewhere the as-written area can be negative for a positive curve, as `Decode.TcalEdgeCases` shows.
- `DcrDecodeAstropy.RcvrTcal` reuses decode's histogram integration. `dcr_decode_astropy.py` carries its own copy of `getHistogramArea` (dcr_decode_astropy.py:277-322), and that copy has the same text.
- `Text.RStrip` and `Text.IsSpace` strip ASCII whitespace only. Python's `str.rstrip` and `numpy.char.rstrip` also remove other Unicode whitespace.
- `CalResults.AddScanTo`, `CalResults.CalibrationResults.AddScan`, `CalResults.CompleteMeaning` and `CalResults.CompleteWithoutLookup` take a `lookup` map from scan number to scan. It stands for `project.getScanIndexByNumber` and `project.getScan` (src/CalibrationResults.py:187-188), which no source file of the repository defines. A scan missing from the map is the swallowed exception.
- `CalResults.CalibrationResults.GetCalSeqData`, `CalResults.GatherScans`, `CalResults.Outcome`, `CalResults.OutcomeLoads`, `CalResults.AddChannelsListed`, `CalResults.ChannelTableMeaning` and `CalResults.Put` use an insertion order that Python 2 does not promise:
  - the model visits the scans in the order in which they joined (`CalResults.Put`) and the gathered channels in the order in which they were listed;
  - `self.scans.iterkeys()` (src/CalibrationResults.py:222) and `calSeqData.keys()` (line 261) iterate Python 2 dictionaries in hash order;
  - that order decides the order of a manual channel's entries, and with it which entry wins when a data type repeats;
  - the model does not capture hash order.
- The Tsys dictionaries of `CalResults` are keyed by the pair (channel, sky position). The source keys them by the string `channel + "," + sky` (src/CalibrationResults.py:282). The two agree unless a channel name contains a comma.
- `Calibrate.ClassNamedMeaning`: `getattr(gbtcal.calibrator, name)` also finds the module's other attributes, such as `numpy`, `Column`, `getTcal` or `CalDiodeAttenuate`. A Cal Strategy naming one of them is then called with the calibrator's arguments, which fails in ways the model does not follow. The model treats such a name as unknown, with the ValueError of a missing class.
- `dcr_calibrate.py` imports `getDcrDataMap` from `dcr_decode_astropy.py`, which does not define it. The data map is therefore a parameter (`DcrCalibrate.DataMap`) of every `DcrCalibrate` function.

## Findings

| source | as written | input that shows it | evidently intended | confidence | as-written member | corrected member |
|---|---|---|---|---|---|---|
| gbtcal/dcrtable.py:205-249 | each consolidated row takes the label of STATE row k mod P, but its DATA comes from the phases in sorted (SIGREF, CAL) order | a STATE table listing (0,1) before (0,0): the row labelled CAL = 1 gets the cal-off counts | each row's DATA is the phase its SIGREF and CAL name | not executed | DcrTable.PhaseLabelMismatch | DcrTable.LabelledSwapped |
| gbtcal/decode.py:109-113 | the search for the bin that holds the band's start reads x past its end | left 6, right 8, x [0, 10], y [1, 1]: IndexError | an area of 2 | not executed | Decode.HistogramReadsPastEnd | Decode.CorrectedTotal |
| gbtcal/decode.py:115-129 | a band that ends before the first boundary found charges the overshoot to the next bin | left 1, right 2, x [0, 10], y [1, 3]: area −5 | an area of 1; an area between lo and hi times the band for a curve between lo and hi | not executed | Decode.HistogramNegative | Decode.CorrectedBounds |
| gbtcal/constants.py:2-11 | all() lists the attribute NAMES, so isValid compares option values with names | POLOPTS.isValid('Avg') is false, while POLOPTS.isValid('AVG') is true | all() lists the values XL, YR and Avg | not executed | Constants.PolOptsRejectsAvg | Constants.ValuesAccepted |
| gbtcal/calibrate.py:25-27,62-66 | validateOptions indexes the receiver's first row before doCalibrate checks that the receiver exists | a receiver missing from the receiver table: IndexError | the ValueError for an unknown receiver | not executed | Calibrate.UnknownReceiverIndexError | Calibrate.DoCalibrateCheckedMeaning |
| gbtcal/Rcvr68_92.py:411-418 | the backward search steps past a timestamp equal to the queried time | timestamps 1, 2, 3; the cursor at 5, then a query for 2: index 0 | index 1, the last timestamp at or before 2 | not executed | Rcvr6892.BackwardSkipsEqualTimestamp | Rcvr6892.QueryIsLastAtOrBefore |
| gbtcal/calibrator.py:180-182,225 | interBeamCalibrate passes three arguments to BeamSubtractionDBA.calibrate, which takes two | any table in a calibration that performs the inter-beam stage: TypeError | a beam subtraction of the feed table | not executed | Pipeline.InterBeamAsWrittenFails | Pipeline.InterPolThenInterBeam |
