# AadhaarPulse analytics core, modelled in Dafny

AadhaarPulse is a dashboard over three Aadhaar datasets: enrolments, biometric updates and demographic updates.
A FastAPI backend cleans and aggregates the datasets, estimates service stations, derives national insights, detects near-duplicate district names and forecasts a migration index.
React pages show the results.

This project models the deterministic computations of both halves and proves their properties:

- **Service-load weighting.** The model has the canonical seven-weight formula of `calculate_service_load` and each page's copy of it. Lemmas say where the copies agree with the backend and where they disagree.
- **Station estimation.** This covers time spans over integer day numbers, the common span of three datasets, the annualisation factor and `ceil(load / 25000)`. The district loop is a method over a set.
- **National insights.** This covers safe division, service shares, the dominant service, top-3 concentration, the activity spread, the capacity hint, the monthly trend and the risk flags.
- **Threshold classifiers.** These are the index, status, pressure, colour, capacity and ratio tiers of the backend and the pages, with lemmas at their boundaries.
- **Name handling.** This covers state names (aliases as title case, with the fuzzy fallback as an oracle), district filters with blacklists, option lists (trim, de-duplicate, sort, filter), the `" *"` marker and pincode padding.
- **Near-duplicate districts.** Names are paired only with later names, with at most five matches per name. The model also gives the count ratio and the recommendation. String similarity is an oracle parameter.
- **Page state.** Each page's selection state is a class whose methods are the event handlers: typing, picking an option, results arriving, the expand toggle and the request guards.

JavaScript values are the datatype `JsValues.JsValue`, with JavaScript truthiness, `a || b` and `(v || 0)`. Python rows are maps from column to count, where a missing column reads as 0. Numbers are exact reals. `Math.round` is `floor(x + 0.5)`, and Python's `round(x, 2)` is rounded half up on exact reals. Everything the code receives from I/O (HTTP responses, database rows, CSV files and the clock) is a parameter.

Modules follow the source files:

| module | file |
|---|---|
| `StationEstimator` | backend/app/services/station_estimator.py |
| `TimeUtils` | backend/app/services/time_utils.py |
| `Aggregations` | backend/app/services/aggregations.py |
| `InsightEngine` | backend/app/services/insight_engine.py |
| `DistrictAnomalyDetector` | backend/app/services/district_anomaly_detector.py |
| `DataCleaner` | backend/app/services/data_cleaner.py |
| `MigrationApi` | backend/main.py |
| `Forecasting` | backend/forecasting.py |
| `MapPage` | src/pages/Map.jsx |
| `NationalDashboard` | src/pages/NationalDashboard.jsx |
| `StateDashboard` | src/pages/StateDashboard.jsx |
| `DistrictDashboard` | src/pages/DistrictDashboard.jsx |
| `DemandAnalysis` | src/pages/DemandAnalysis.jsx |
| `MigrationAnalysis` | src/pages/MigrationAnalysis.jsx |
| `DataCleaningPage` | src/pages/data-cleaning/DataCleaning.jsx |
| `MigrationForecastPage` | src/pages/MigrationForecast.jsx |
| `NationalInsightsPage` | src/pages/NationalInsights.jsx |
| `ServiceLoadVariants` | the page copies of the service-load formula |
| `JsValues`, `Common` | JavaScript value rules; strings, sequences, sorting, rounding |

## Model

| member | source | states |
|---|---|---|
| StationEstimator.Columns | backend/app/services/station_estimator.py:5-13 | The columns of a weight table are exactly the names it lists. |
| StationEstimator.CalculateServiceLoad | backend/app/services/station_estimator.py:15-19 | The loop over `WEIGHTS` returns the weighted sum `ServiceLoad(row)`, with a missing column read as 0. |
| StationEstimator.ServiceLoadFormula | backend/app/services/station_estimator.py:5-19 | The load is 1.2·age_0_5 + 1.1·age_5_17 + 1.0·age_18_greater + 0.8·bio_age_5_17 + 1.0·bio_age_17_ + 0.6·demo_age_5_17 + 0.7·demo_age_17_. |
| StationEstimator.WeightedSumAgree | backend/app/services/station_estimator.py:15-19 | Two rows that agree on every column of a table have the same weighted sum. |
| StationEstimator.ServiceLoadIgnoresOtherKeys | backend/app/services/station_estimator.py:15-19 | Keys outside `WEIGHTS` never affect the load. |
| StationEstimator.ServiceLoadUpdateOtherKey | backend/app/services/station_estimator.py:15-19 | Setting a key outside `WEIGHTS` leaves the load unchanged. |
| StationEstimator.ServiceLoadSingleColumn | backend/app/services/station_estimator.py:5-19 | A row with one weighted column at 1 and nothing else scores exactly that column's weight. |
| StationEstimator.WeightedSumNonNegative | backend/app/services/station_estimator.py:15-19 | Non-negative counts and weights give a non-negative weighted sum. |
| StationEstimator.ServiceLoadNonNegative | backend/app/services/station_estimator.py:15-19 | Non-negative counts give a non-negative load. |
| StationEstimator.WeightedSumMonotone | backend/app/services/station_estimator.py:15-19 | With non-negative weights, raising one count never lowers the weighted sum. |
| StationEstimator.ServiceLoadMonotone | backend/app/services/station_estimator.py:15-19 | Raising any one count never lowers the load. |
| StationEstimator.EstimateStations | backend/app/services/station_estimator.py:3-25 | The result is 0 for a load ≤ 0. Otherwise it is s ≥ 1 with (s−1)·25000 < load ≤ s·25000, which is `ceil(load / 25000)`. |
| StationEstimator.EstimateStationsMonotone | backend/app/services/station_estimator.py:22-25 | `estimate_stations` is monotone in the load. |
| TimeUtils.Parsed | backend/app/services/time_utils.py:8 | The parsed dates are exactly the dates that are not NaT. |
| TimeUtils.MinOf | backend/app/services/time_utils.py:10 | `min` is a member that is ≤ every element. |
| TimeUtils.MaxOf | backend/app/services/time_utils.py:11 | `max` is a member that is ≥ every element. |
| TimeUtils.TimeSpanDays | backend/app/services/time_utils.py:3-16 | The result is 0 exactly when no date parses. Otherwise it is hi − lo + 1 for a parsed earliest date lo and latest date hi, so it is ≥ 1. |
| TimeUtils.TimeSpanIgnoresUnparsed | backend/app/services/time_utils.py:8-11 | An unparseable date anywhere in the column does not change the span. |
| TimeUtils.SpanDeterminedByParsed | backend/app/services/time_utils.py:8-16 | Two columns with the same parsed dates have the same span. |
| TimeUtils.TimeSpanSingleDay | backend/app/services/time_utils.py:10-16 | A column whose parsed dates all fall on one day spans 1 day. |
| JsValues.StringField | src/pages/StateDashboard.jsx:46 | `s && s.state && typeof s.state === "string"` holds exactly when the field is a non-empty string, and the result is that string. |
| JsValues.AsRow | backend/app/services/station_estimator.py:18 | Reading a record as a backend row gives every key the value `(v.k \|\| 0)`. |
| JsValues.RoundedPercent | src/pages/Map.jsx:121-126 | The result is 0 when the total is ≤ 0. Otherwise it is `Math.round(part / total · 100)`, within ½ of the exact percentage, and in [0, 100] for 0 ≤ part ≤ total. |
| Aggregations.RowsOfState | backend/app/services/aggregations.py:99-101 | `df[df["state"] == s]` keeps exactly the rows of state s. |
| Aggregations.RowsOfDistrict | backend/app/services/aggregations.py:112-114 | `df[df["district"] == d]` keeps exactly the rows of district d. |
| Aggregations.DistrictFrame | backend/app/services/aggregations.py:112-114 | A district's frame has every column of its dataset except `pincode`, which `drop` removes. |
| Aggregations.Totals | backend/app/services/aggregations.py:119-121 | `df.sum(numeric_only=True)` has one total per numeric column. |
| Aggregations.Dates | backend/app/services/aggregations.py:116 | The date column lists each row's date in order. |
| Aggregations.Positives | backend/app/services/aggregations.py:87 | The comprehension keeps exactly the positive spans. |
| Aggregations.CommonTimeSpanDays | backend/app/services/aggregations.py:82-88 | The result is 0 exactly when no span is positive. Otherwise it is one of the spans, and it is ≤ every positive span. |
| Aggregations.AnnualFactor | backend/app/services/aggregations.py:117 | The factor is 365/days when days > 0 and 1 otherwise, so it is always positive and never a division by zero. |
| Aggregations.MakeEstimate | backend/app/services/aggregations.py:123-143 | A result row keeps the district, the merged counts and the time window. |
| Aggregations.DistrictRow | backend/app/services/aggregations.py:112-128 | The merged row has the columns of all three datasets except `pincode`. Each column holds the district's sum in the last dataset that has it, in the order enrolment, biometric, demographic, as `**` gives. |
| Aggregations.DistrictDays | backend/app/services/aggregations.py:116 | A district's common time window is never negative. |
| Aggregations.EstimateDistrict | backend/app/services/aggregations.py:112-145 | The loop body's row names its district. |
| Aggregations.EstimateAnnualised | backend/app/services/aggregations.py:130-131 | The observed load is `calculate_service_load` of the merged row. The annualised load is the observed load times the unrounded factor 365/days, or the observed load itself when days ≤ 0. |
| Aggregations.EstimateFactorRounded | backend/app/services/aggregations.py:117-139 | The reported factor lies within 0.005 of 365/days (rounded to two places), and it is 1 when days ≤ 0. |
| Aggregations.EstimateStationsAgree | backend/app/services/aggregations.py:133-135 | For non-negative counts the station count equals `estimate_stations(annualised)`, and it is 0 exactly when the annualised load is 0. |
| Aggregations.StationsCeilDiffersOnNegativeLoad | backend/app/services/aggregations.py:133-135 | For a load of −30000 the unguarded ceiling gives −1 where `estimate_stations` gives 0. |
| Aggregations.DistrictsOf | backend/app/services/aggregations.py:105-109 | The set holds exactly the districts of the rows. |
| Aggregations.EstimateEach | backend/app/services/aggregations.py:111-147 | The loop over the district set appends exactly one row per district, each being the loop body's result for that district. |
| Aggregations.AggregateDistrictWithStationEstimate | backend/app/services/aggregations.py:94-147 | There is one result row per distinct district of the state in the union of the three datasets, and each row is the per-district estimate. |
| Aggregations.StatesOf | backend/app/services/aggregations.py:42-44 | The group keys are exactly the states of the rows. |
| Aggregations.RenameLeft | backend/app/services/aggregations.py:46-49 | Every left-frame value keeps its place under its merged name, which is the name plus "_x" when the right frame shares it. |
| Aggregations.RenameRight | backend/app/services/aggregations.py:46-49 | Every right-frame value keeps its place under its merged name, which is the name plus "_y" when the left frame shares it. |
| Aggregations.MergeRow | backend/app/services/aggregations.py:46-49 | One row of `merge(on="state")` has exactly the merged names of both sides, and each side's value is found under its own merged name. |
| Aggregations.StateRow | backend/app/services/aggregations.py:46-51 | A state's merged row has exactly the columns the two merges name, with shared names suffixed. |
| Aggregations.AggregateState | backend/app/services/aggregations.py:37-53 | The result is absent exactly when the suffixed names would clash. Otherwise the outer merge has exactly the states found in any dataset, each once, with the merged row of the three per-state sums. |
| Aggregations.StateRowColumns | backend/app/services/aggregations.py:42-51 | A column of one dataset alone keeps its name and holds that dataset's sum over the state's rows. A column shared by enrolment and biometric holds their sums as "_x" and "_y". A demographic column the first merge already has arrives as "_y". |
| Aggregations.SharedNameSuffixed | backend/app/services/aggregations.py:46-48 | A shared name not ending in x or y leaves the first merge only as its "_x" and "_y" forms. |
| Aggregations.PincodeSuffixed | backend/app/services/aggregations.py:42-51 | `pincode`, numeric in all three datasets and never dropped, shows as "pincode_x" (enrolment sum), "pincode_y" (biometric sum) and "pincode" (demographic sum). |
| Aggregations.StateRowMissingState | backend/app/services/aggregations.py:50 | A state that a dataset lacks reads 0 in that dataset's columns (`fillna(0)`). |
| Aggregations.AggregateNational | backend/app/services/aggregations.py:15-34 | There is one total per listed age column of each dataset, and each is the column's sum. |
| InsightEngine.SafeDiv | backend/app/services/insight_engine.py:21-23 | The result is 0 when the denominator is 0. Otherwise result × denominator = numerator. |
| InsightEngine.StateServiceLoad | backend/app/services/insight_engine.py:31-44 | `_calculate_state_service_load` equals `calculate_service_load` on every dict. |
| InsightEngine.BucketByMonth | backend/app/services/insight_engine.py:47-65 | The loop over the records builds exactly the bucket map `Buckets(records)`. |
| InsightEngine.BucketsAreMonthTotals | backend/app/services/insight_engine.py:53-63 | A bucket exists exactly for the months of dated records, and it holds the total load of that month's records. Records with no date or a bad date are skipped. |
| InsightEngine.ShareBounded | backend/app/services/insight_engine.py:102-104 | A part of a non-negative total has a share in [0, 100]. |
| InsightEngine.SharesPartition | backend/app/services/insight_engine.py:99-105 | With a grand total of 0 all three shares are 0. Otherwise the unrounded shares lie in [0, 100] and sum to 100. |
| InsightEngine.DominantService | backend/app/services/insight_engine.py:107 | The dominant service has the largest share, and ties go to the earlier key in the order Enrolment, Biometric Update, Demographic Update. |
| InsightEngine.DominantIsLargest | backend/app/services/insight_engine.py:107-111 | The dominant service's share is at least each of the other two. |
| InsightEngine.StateLoads | backend/app/services/insight_engine.py:123-129 | There is one entry per state record: its name and its service load. |
| InsightEngine.SortedLoads | backend/app/services/insight_engine.py:133 | The sort is a descending permutation of the loads. |
| InsightEngine.Top3AreLargest | backend/app/services/insight_engine.py:133-135 | `top_3` holds min(3, n) of the states, a sub-multiset of them, and no state left out of the sorted list's first three has a larger load than any of the three. |
| InsightEngine.Top3States | backend/app/services/insight_engine.py:141 | The names are those of the top three, at most three. |
| InsightEngine.Top3ShareBounded | backend/app/services/insight_engine.py:136-138 | For non-negative loads the unrounded top-3 share lies in [0, 100]. |
| InsightEngine.ConcentrationFlag | backend/app/services/insight_engine.py:143 | The flag is HIGH_CONCENTRATION exactly when the share is > 45, and BALANCED otherwise. |
| InsightEngine.ActiveStates | backend/app/services/insight_engine.py:155 | The active states are exactly those with load ≥ 0.5·average. |
| InsightEngine.SomeAtLeastAverage | backend/app/services/insight_engine.py:154 | In a non-empty list some state's load times the number of states reaches the total, so that load is at least the average. |
| InsightEngine.SomeStateActive | backend/app/services/insight_engine.py:154-157 | For non-negative loads a non-empty list has at least one active state. |
| InsightEngine.SpreadLabel | backend/app/services/insight_engine.py:159-164 | The label is Broad for a ratio ≥ 0.7, Moderate for a ratio in [0.4, 0.7) and Narrow below 0.4. |
| InsightEngine.CapacityHint | backend/app/services/insight_engine.py:181-186 | The hint is Stable below 5e7, Expansion Required in [5e7, 1e8) and Urgent Scaling Needed from 1e8. |
| InsightEngine.SortedKeys | backend/app/services/insight_engine.py:209 | `sorted(monthly.keys())` is increasing and holds exactly the keys. |
| InsightEngine.MonthKeyChronological | backend/app/services/insight_engine.py:60 | The key year·100 + month of a parsed date orders months chronologically and tells months apart. For four-digit years it so matches the order of the "YYYY-MM" strings that `sorted` compares. Also lines 208-209. |
| InsightEngine.MonthKeys | backend/app/services/insight_engine.py:53-62 | The month keys are exactly those of the dated records. |
| InsightEngine.Months | backend/app/services/insight_engine.py:208-209 | The months are increasing and are exactly the bucket keys. |
| InsightEngine.MonthlyValues | backend/app/services/insight_engine.py:210 | There is one value per month. |
| InsightEngine.ClassifyDelta | backend/app/services/insight_engine.py:217-225 | The trend is INCREASING above +10 and DECREASING below −10. It is STRONG beyond ±20, MODERATE between 10 and 20 in either direction, and STABLE/WEAK otherwise. |
| InsightEngine.TrendNeedsSixMonths | backend/app/services/insight_engine.py:200-212 | The trend stays INSUFFICIENT_DATA unless the state list is non-empty, its first record has a `date` field and there are at least six monthly buckets. |
| InsightEngine.RiskFlags | backend/app/services/insight_engine.py:241-250 | HIGH_REGIONAL_CONCENTRATION is present iff the share is > 45. BIO_REVERIFICATION_SURGE is present iff Biometric Update dominates with share > 50. CAPACITY_STRETCH_RISK is present iff the hint is not Stable. Nothing else is added, and the flags come in that order. |
| InsightEngine.NationalInsights | backend/app/services/insight_engine.py:72-281 | The concentration flag agrees with the regional risk flag, and the Stable hint agrees with the absence of the capacity risk flag. There are at most 3 top states, one total per state record, and no more active states than states. |
| DistrictAnomalyDetector.Round3 | backend/app/services/district_anomaly_detector.py:40 | `round(score, 3)` lies within 0.0005 of the score. |
| DistrictAnomalyDetector.PairsOf | backend/app/services/district_anomaly_detector.py:27-41 | `names[i]` yields one pair per close match among the later names. |
| DistrictAnomalyDetector.PairwiseSimilarities | backend/app/services/district_anomaly_detector.py:18-43 | The nested loops return exactly the concatenation, over i, of the pairs of `names[i]` against `names[i+1:]`. |
| DistrictAnomalyDetector.PairsUpToOrdered | backend/app/services/district_anomaly_detector.py:26-41 | For strictly sorted names and a matcher that only returns candidates, every pair from the first m names has district_a < district_b. |
| DistrictAnomalyDetector.PairsOrdered | backend/app/services/district_anomaly_detector.py:26-41 | Every pair of the sorted distinct names has district_a < district_b, so no name is paired with itself. Also line 106. |
| DistrictAnomalyDetector.CountFirstAppend | backend/app/services/district_anomaly_detector.py:37 | Counting pairs by first name is additive over appended results. |
| DistrictAnomalyDetector.CountFirstOf | backend/app/services/district_anomaly_detector.py:35-41 | Every pair produced for `names[i]` has `names[i]` as its first name. |
| DistrictAnomalyDetector.AtMostFiveUpTo | backend/app/services/district_anomaly_detector.py:28-33 | With distinct names, at most five pairs from the first m names start with a name, and none start with a name outside those m. |
| DistrictAnomalyDetector.AtMostFivePerName | backend/app/services/district_anomaly_detector.py:28-33 | `n=5`: at most five pairs share a first name. |
| DistrictAnomalyDetector.Occurrences | backend/app/services/district_anomaly_detector.py:105 | A name's count is positive exactly when it occurs, and is at most the number of rows. |
| DistrictAnomalyDetector.DistrictCounts | backend/app/services/district_anomaly_detector.py:105 | `value_counts()` has exactly the districts that occur as keys. |
| DistrictAnomalyDetector.CountRatio | backend/app/services/district_anomaly_detector.py:122 | The ratio is ≥ 0, and ≥ 1 once a count is positive. With one count 0 it is the other count. With both ≥ 1, ratio × smaller = larger. |
| DistrictAnomalyDetector.CountRatioSymmetric | backend/app/services/district_anomaly_detector.py:122 | The ratio does not depend on the order of the two districts. |
| DistrictAnomalyDetector.Recommendation | backend/app/services/district_anomaly_detector.py:129 | The recommendation is "review" exactly when the ratio ≥ min_count_ratio, and "check" otherwise. |
| DistrictAnomalyDetector.EnrichPairs | backend/app/services/district_anomaly_detector.py:114-130 | The enrichment loop returns one candidate per pair, in order, each the pair enriched with its counts, ratio and recommendation. |
| DistrictAnomalyDetector.DistrictsIn | backend/app/services/district_anomaly_detector.py:92-94 | The state's districts are exactly those of its rows, and the list is empty exactly when the state has no rows. |
| DistrictAnomalyDetector.DetectDistrictAnomalies | backend/app/services/district_anomaly_detector.py:50-142 | A missing state or district column, or a state without rows, returns the bare report with no duplicates and no thresholds. Otherwise the report carries both thresholds and the enriched pairs of the sorted distinct districts. |
| DistrictAnomalyDetector.EnrichedPairsAreDuplicates | backend/app/services/district_anomaly_detector.py:105-130 | Enriching the pairs of the sorted distinct names with the state's counts gives exactly the reported candidates. |
| DistrictAnomalyDetector.DuplicatesFaithful | backend/app/services/district_anomaly_detector.py:105-130 | Every candidate is ordered, its rows_a and rows_b are the two names' row counts in the state (each ≥ 1), and it is "review" exactly when the unrounded ratio reaches the threshold. |
| DistrictAnomalyDetector.PairsUpToMembers | backend/app/services/district_anomaly_detector.py:26-41 | Both names of every pair come from the name list. |
| DistrictAnomalyDetector.DuplicatesAtMostFive | backend/app/services/district_anomaly_detector.py:28-33 | At most five reported candidates share a first name. Also line 106. |
| DistrictAnomalyDetector.CountFirstIndices | backend/app/services/district_anomaly_detector.py:37 | The pair count by first name is the number of indices holding that name. |
| DataCleaner.TitleFrom | backend/app/services/data_cleaner.py:87 | `str.title()`: the length is kept and non-letters are unchanged. A letter is upper case exactly when it starts a word (no letter before it), and lower case otherwise. Also line 144. |
| DataCleaner.TitleFromIdempotent | backend/app/services/data_cleaner.py:87 | Title-casing twice is title-casing once. Also line 144. |
| DataCleaner.TitlePreservesDigits | backend/app/services/data_cleaner.py:79-87 | Title-casing keeps an all-digit string all-digit, and the converse. |
| DataCleaner.CleanColumnName | backend/app/services/data_cleaner.py:122-127 | A column name is stripped and lower-cased and has no spaces: each character is `_` or the lower-cased stripped character. |
| DataCleaner.RemoveDotZero | backend/app/services/data_cleaner.py:152 | Removing ".0" never lengthens a string and leaves a string without "." unchanged. |
| DataCleaner.RemoveDotZeroFloat | backend/app/services/data_cleaner.py:152 | A pincode read as a float, `a + ".0"` with no "." in a, becomes a. |
| DataCleaner.ZFill | backend/app/services/data_cleaner.py:153 | `zfill(6)`: a string of six or more characters is unchanged. A shorter one is padded to six with '0's, after a leading sign if any. |
| DataCleaner.CleanPincode | backend/app/services/data_cleaner.py:148-154 | A cleaned pincode has at least six characters. |
| DataCleaner.CleanPincodeOfFloat | backend/app/services/data_cleaner.py:148-154 | A digit string with ".0" appended becomes the string zero-filled to six, ending in the original digits. |
| DataCleaner.NormalizeRejects | backend/app/services/data_cleaner.py:72-114 | A non-string gives None with no correction. An all-digit stripped string gives None with exactly one `invalid_state` correction from the stripped text. Every other string gives a name. A call appends at most two corrections. |
| DataCleaner.NormalizeWithoutFuzzy | backend/app/services/data_cleaner.py:87-114 | With no fuzzy match different from it, the result is the title-cased name after one alias lookup. A `state_alias` correction is logged exactly when an alias applied, and nothing else is logged. |
| DataCleaner.NormalizeFuzzy | backend/app/services/data_cleaner.py:99-112 | A fuzzy match different from the cleaned name is returned, and a `state_fuzzy` correction from the stripped original is logged last. With a sound matcher the result is a canonical state. |
| DataCleaner.AliasNotChained | backend/app/services/data_cleaner.py:32-39 | An alias is applied once and not chained: "Dadra & Nagar Haveli" becomes "Dadra And Nagar Haveli", which is itself an alias key. Also lines 90-96. |
| DataCleaner.CorrectionLog.constructor | backend/app/services/data_cleaner.py:165 | The corrections list starts empty. |
| DataCleaner.CorrectionLog.NormalizeStateName | backend/app/services/data_cleaner.py:72-114 | The method returns the normalised name and appends exactly that call's corrections to the log. |
| DataCleaner.CorrectionLog.CleanStates | backend/app/services/data_cleaner.py:130-136 | `apply` then `dropna`: the kept rows are those whose state normalises to a name, carrying that name. The log gains the rows' corrections in row order. |
| DataCleaner.CorrectionLog.CleanStateRow | backend/app/services/data_cleaner.py:131-136 | One row is normalised: it is kept with the new name unless the name is None, and its corrections are appended. |
| DataCleaner.CorrectionLog.CleanCommon | backend/app/services/data_cleaner.py:118-156 | `clean_common` returns the fully transformed frame and appends exactly the frame's state corrections to the log. |
| DataCleaner.IndexOf | backend/app/services/data_cleaner.py:130-148 | The column lookup finds the first column with the name, and None exactly when there is none. |
| DataCleaner.CleanColumns | backend/app/services/data_cleaner.py:122-127 | Each column name is cleaned in place, and the count is kept. |
| DataCleaner.StateRows | backend/app/services/data_cleaner.py:136 | `dropna` never adds rows. |
| DataCleaner.StateStep | backend/app/services/data_cleaner.py:131-136 | The kept rows and the log of one more row extend those of the prefix by that row's outcome. |
| DataCleaner.MapColumn | backend/app/services/data_cleaner.py:139-154 | A column transform changes only that column of every row. |
| DataCleaner.StateRowsDropsDigits | backend/app/services/data_cleaner.py:79-85 | The state cleanup drops exactly the rows whose stripped state is all digits, and logs at most two corrections per row. Also line 136. |
| DataCleaner.Numeric | backend/app/services/data_cleaner.py:79 | The numeric rows are rows of the frame whose stripped state is all digits. |
| DataCleaner.CleanedColumns | backend/app/services/data_cleaner.py:122-127 | The cleaned frame has as many columns, none holding a space or an upper-case letter. |
| DataCleaner.CleanedRows | backend/app/services/data_cleaner.py:130-154 | Without a state column no row is lost. With one, exactly the numeric-state rows are lost. Every cleaned pincode cell has at least six characters. |
| DataCleaner.MakeLogEntry | backend/app/services/data_cleaner.py:177-184 | The log entry records the row count and the number of corrections, and samples the first min(100, n) corrections. |
| DataCleaner.CleanDataset | backend/app/services/data_cleaner.py:164-192 | With a fresh corrections list, the entry and the summary report the cleaned frame's row count and exactly the frame's corrections. |
| MigrationApi.InterpretIndex | backend/main.py:435-446 | A missing index is "No Data". Otherwise the tiers are < 1 Low, [1, 2) Moderate, [2, 3) High and ≥ 3 Very High, so each boundary opens the next tier. |
| MigrationApi.InterpretIndexMonotone | backend/main.py:435-446 | A higher index never gets a lower tier. |
| MigrationApi.ValidIndices | backend/main.py:158 | The non-null indices are at most the rows, and none exist exactly when every index is null. Also lines 235, 366. |
| MigrationApi.ValidIndicesMembers | backend/main.py:366 | Exactly the non-null indices appear. |
| MigrationApi.Weighted | backend/main.py:158 | There is one (index, child_enrolments) pair per non-null index, in row order. |
| MigrationApi.StateAverage | backend/main.py:158-162 | The average is None exactly when no index is present. It raises a division by zero exactly when indices exist but their weights sum to 0. Otherwise average × Σweight = Σindex·weight. |
| MigrationApi.WeightedSumsBounded | backend/main.py:160 | With non-negative weights and indices in [lo, hi], lo·Σw ≤ Σindex·w ≤ hi·Σw. |
| MigrationApi.StateAverageBounded | backend/main.py:158-162 | With non-negative child enrolments the weighted average of indices in [lo, hi] lies in [lo, hi]. |
| MigrationApi.PairsAverageBounded | backend/main.py:160 | The weighted average of pairs with bounded indices and non-negative weights keeps those bounds. |
| MigrationApi.WeightsNonNegative | backend/main.py:160 | Non-negative weights have a non-negative sum. |
| MigrationApi.MeanIndex | backend/main.py:235-237 | The mean is None exactly when no index is present. Otherwise mean × count = sum. Also lines 290-292, 382. |
| MigrationApi.Indexed | backend/main.py:169-170 | The candidate entries are exactly the (district, index) pairs of the rows with an index. |
| MigrationApi.TopDistrictsLargest | backend/main.py:167-173 | The top districts number at most five and are a sub-multiset of the indexed rows, in descending order. No district left out has a higher index than one shown. |
| MigrationApi.GetStateMigration | backend/main.py:147-183 | No rows gives 404, and a zero total weight gives ZeroDivisionError (500). Otherwise the reply has the child and adult totals, the weighted average, its status and the top districts. |
| MigrationApi.GetAreaMigration | backend/main.py:207-250 | No rows gives 404 and no division by zero can occur. Otherwise the reply has the totals, the arithmetic mean of the indices and its status. Also lines 268-310. |
| MigrationApi.Trend | backend/main.py:366-380 | With fewer than two indices the trend is "Insufficient Data". Otherwise the second half's average (the larger half for an odd count) is compared with 1.1× and 0.9× the first half's: Rising above 1.1×, Falling below 0.9×, Stable between. |
| MigrationApi.ConstantSeriesStable | backend/main.py:366-378 | A constant non-negative series of two or more indices is Stable. |
| MigrationApi.GetMigrationTrend | backend/main.py:346-392 | No rows gives 404. Otherwise the reply has the trend of the non-null indices and their mean, and it never divides by zero. |
| MigrationApi.CheckForecastMethod | backend/main.py:476-480 | The method is accepted exactly when it is prophet, arima or ensemble, and any other method is a 400. |
| Forecasting.MapAvailable | backend/forecasting.py:124-128 | A name is kept exactly when its `lower().strip()` is a mapping key whose official form is a valid state, and the kept value is a valid state. |
| Forecasting.StateHit | backend/forecasting.py:122-128 | A row yields only valid official names. |
| Forecasting.CleanedMembers | backend/forecasting.py:121-128 | The cleaned set holds exactly the official names some row maps to, and it is a subset of the valid states. |
| Forecasting.GetAvailableStates | backend/forecasting.py:18-130 | The result is sorted without repeats: the found names, or every valid state when none is found. So it is never empty and only lists valid states. |
| Forecasting.QueryState | backend/forecasting.py:135-186 | A district query uses the mapped form of `lower().strip()`, or the argument unchanged when that is not a key. |
| Forecasting.DistrictHit | backend/forecasting.py:197-200 | A kept name is longer than two characters after stripping. |
| Forecasting.DistrictsMembers | backend/forecasting.py:195-200 | The offered districts are exactly the stripped forms of the kept names, each longer than two characters. |
| Forecasting.GetDistrictsForState | backend/forecasting.py:195-202 | The result is sorted without repeats and holds exactly the offered districts. |
| Forecasting.PaddedBlacklistedNameKept | backend/forecasting.py:197-200 | The blacklist is checked before stripping: " null " is offered as "null", while "null" itself is dropped. |
| Forecasting.KeptAloneOffered | backend/forecasting.py:197-200 | A single name that passes the filter is offered in its stripped form. |
| Forecasting.EffectiveIndex | backend/forecasting.py:221-228 | With no child enrolments but some adult updates the index is adult_updates / 1000. Otherwise it is the stored index. |
| Forecasting.History | backend/forecasting.py:218-236 | There are no more points than rows, and every point has a positive index. |
| Forecasting.HistoryExact | backend/forecasting.py:219-236 | A row is kept exactly when its effective index is positive, and then with that index and its own date and counts. |
| Forecasting.GetHistoricalData | backend/forecasting.py:214-239 | The result is None exactly when no row survives the filter. Otherwise it is the surviving points. |
| Forecasting.ChangePercent | backend/forecasting.py:465 | The change is 0 when the first prediction is 0. Otherwise change × first = (last − first) × 100. |
| Forecasting.ForecastTrend | backend/forecasting.py:490 | The trend is Increasing above +5, Decreasing below −5 and Stable in between, both thresholds being strict. |
| Forecasting.Pressure | backend/forecasting.py:471-485 | The pressure tiers are > 3, (2, 3], (1, 2], (0.5, 1] and ≤ 0.5. |
| Forecasting.Mean | backend/forecasting.py:468 | `np.mean`: mean × n = sum. Also line 517. |
| Forecasting.InterpretForecast | backend/forecasting.py:455-493 | An empty forecast gives the empty result. Otherwise the result has the mean, the first-to-last change, its trend, and the pressure and the policy text of the mean. |
| Forecasting.PolicyTextsDistinct | backend/forecasting.py:471-485 | The five policy texts are pairwise different. |
| Forecasting.PolicyFollowsPressure | backend/forecasting.py:471-485 | Two averages get the same policy text exactly when they get the same pressure label, because each branch sets both together. |
| Forecasting.FlatForecast | backend/forecasting.py:455-493 | A flat forecast of value c is Stable with average c. |
| Forecasting.ZeroChange | backend/forecasting.py:465 | Equal first and last predictions give a change of 0. |
| Forecasting.PressureBoundaries | backend/forecasting.py:471-485 | 3, 2, 1 and 0.5 each fall in the tier below. |
| Forecasting.GetStatus | backend/forecasting.py:536-545 | `_get_status` is > 3 Very High, (2, 3] High, (1, 2] Moderate and otherwise Low. |
| Forecasting.StatusAgreesWithInterpretIndex | backend/forecasting.py:536-545 | `_get_status` agrees with `interpret_index` except at exactly 1, 2 and 3, where it names the tier below. |
| Forecasting.Predictions | backend/forecasting.py:512-522 | Only districts whose forecast has values are listed, each with the status of its average. |
| Forecasting.SliceTo | backend/forecasting.py:534 | `xs[:n]` is a prefix: the first n elements, or for negative n all but the last −n. |
| Forecasting.GetTopGrowthPredictions | backend/forecasting.py:495-534 | The result is the predictions sorted by descending average, then cut to `top_n`. |
| Forecasting.TopGrowthLargest | backend/forecasting.py:527-534 | The list is descending, at most top_n long and drawn from the predictions, each with its own status. No prediction left out is above one kept. |
| MapPage.ServiceLoadIndex | src/pages/Map.jsx:89 | `Math.round(computeServiceLoad(nationalData))` lies within 0.5 of the map page's own load of the national record (`RoundHalfUp(MapServiceLoad(national))`), and it is 0 without a record. |
| MapPage.ServiceLoadIndexAgreesWithDashboard | src/pages/Map.jsx:89 | On the nested national record the map page shows the same load index as the national dashboard. |
| MapPage.RoundedLoads | src/pages/Map.jsx:99-103 | There is one entry per state record, in order: its `state` field and its load rounded with `Math.round`. |
| MapPage.StatesWithLoadTopTen | src/pages/Map.jsx:99-105 | The list holds at most ten states, exactly ten when there are that many. It is in descending load order, drawn from the records, and no state left out has a larger load than one shown. |
| MapPage.Positive | src/pages/Map.jsx:108 | `filter(l => l > 0)` keeps exactly the positive loads. |
| MapPage.SortedPositive | src/pages/Map.jsx:108 | `allStateLoads` is the positive loads in ascending order, as a permutation. |
| MapPage.MedianAtMostQuartile | src/pages/Map.jsx:108-110 | The median never exceeds the upper quartile. |
| MapPage.Loads | src/pages/Map.jsx:113-115 | There is one load per state record. |
| MapPage.DistributionCoversAllStates | src/pages/Map.jsx:109-116 | Low, Medium and High together count every state exactly once. |
| MapPage.ZeroLoadsAllHigh | src/pages/Map.jsx:108-116 | With no positive load the median and quartile are `undefined \|\| 0` = 0, so every state counts as High demand. |
| MapPage.OneStatePerBucket | src/pages/Map.jsx:108-116 | Loads 12, 60 and 120 put one state in each bucket. |
| MapPage.Top3PercentageBounded | src/pages/Map.jsx:121-123 | With non-negative loads the top-three percentage lies in [0, 100]. |
| MapPage.BiometricPercentageBounded | src/pages/Map.jsx:82-88 | With non-negative national counts the biometric percentage lies in [0, 100]. Also lines 125-126. |
| ServiceLoadVariants.MapServiceLoad | src/pages/Map.jsx:60-77 | A falsy record scores 0. |
| ServiceLoadVariants.NationalServiceLoad | src/pages/NationalDashboard.jsx:44-58 | A falsy record scores 0. |
| ServiceLoadVariants.FlatServiceLoad | src/pages/StateDashboard.jsx:56-67 | A falsy record scores 0. |
| ServiceLoadVariants.FlatAgreesWithBackend | src/pages/StateDashboard.jsx:56-67 | On any record the flat copy (the state and district dashboards) equals `calculate_service_load` of the record read as a row. |
| ServiceLoadVariants.MapAgreesOnFlat | src/pages/Map.jsx:60-77 | On a record without truthy sub-objects the map page's copy is the flat formula, and so the backend's load. |
| ServiceLoadVariants.Nest | src/pages/Map.jsx:63-66 | The nested form of a record is an object. |
| ServiceLoadVariants.MapNestedMatchesFlat | src/pages/Map.jsx:63-76 | The map page scores a flat record and its nested form alike. |
| ServiceLoadVariants.NationalAgreesOnNested | src/pages/NationalDashboard.jsx:44-58 | The national dashboard scores the nested form of a record at the flat formula of that record, and so at the backend's load. |
| ServiceLoadVariants.NestedTruthy | src/pages/NationalDashboard.jsx:46-48 | A nested record is truthy and its three sub-objects are objects, so `\|\|` keeps them. |
| ServiceLoadVariants.NestedCounts | src/pages/Map.jsx:64-76 | The weighted counts of the nested sub-objects equal those of the flat record. |
| ServiceLoadVariants.NationalFlatScoresZero | src/pages/NationalDashboard.jsx:46-57 | The national dashboard scores a flat record 0, whatever its counts. |
| ServiceLoadVariants.MapAndNationalDisagree | src/pages/Map.jsx:64-69 | One child enrolment on a flat record scores 1.2 on the map page and 0 on the national dashboard. |
| ServiceLoadVariants.VariantsNonNegative | src/pages/Map.jsx:60-77 | With non-negative counts every copy of the formula is non-negative. |
| ServiceLoadVariants.OrNonNegative | src/pages/Map.jsx:64-66 | `a \|\| b` of two records with non-negative counts has non-negative counts. |
| ServiceLoadVariants.WeightedNonNegative | src/pages/Map.jsx:68-76 | The seven-weight formula over non-negative counts is non-negative. |
| NationalDashboard.Totals | src/pages/NationalDashboard.jsx:64-66 | A total whose sub-object is missing or falsy is 0. |
| NationalDashboard.NationalKpis | src/pages/NationalDashboard.jsx:60-71 | No national record shows the error card. Otherwise the page shows the rounded national load, the three totals and each total's rounded percentage of all services. |
| NationalDashboard.PercentagesBounded | src/pages/NationalDashboard.jsx:68-71 | With non-negative counts every percentage lies in [0, 100], and with no services at all every percentage is 0. |
| NationalDashboard.TotalsNonNegative | src/pages/NationalDashboard.jsx:64-66 | Non-negative counts give non-negative totals. |
| NationalDashboard.SharesBounded | src/pages/NationalDashboard.jsx:68-71 | Non-negative totals have rounded shares in [0, 100]. |
| StateDashboard.NameOptions | src/pages/StateDashboard.jsx:44-50 | The options are sorted without repeats, and are exactly the non-empty trimmed names of the records holding a non-empty string under the key. |
| StateDashboard.FilterOptions | src/pages/StateDashboard.jsx:52-54 | The options kept are exactly those containing the search text, ignoring case, and never more than there were. |
| StateDashboard.EmptySearchShowsAll | src/pages/StateDashboard.jsx:52-54 | An empty search keeps every option, in order. |
| StateDashboard.FindByName | src/pages/StateDashboard.jsx:71-72 | `find` returns the first record whose trimmed key is the name, and null when no record matches. |
| StateDashboard.PickedOptionFound | src/pages/StateDashboard.jsx:44-74 | Picking an offered option always finds a record. |
| StateDashboard.FlatKpisAgreeWithBackend | src/pages/StateDashboard.jsx:56-67 | The shown service load is the backend's load of the record, rounded, and the three totals are the record's age columns summed. Also lines 176-180. |
| StateDashboard.FlatKpisNonNegative | src/pages/StateDashboard.jsx:176-180 | With non-negative counts every figure is non-negative. |
| StateDashboard.FlatKpisOfEmptyRecord | src/pages/StateDashboard.jsx:176-180 | A record without counts shows 0 everywhere. |
| StateDashboard.StateDashboardPage.constructor | src/pages/StateDashboard.jsx:8-13 | The initial state: no states, no choice, empty search, loading, no error, list closed. |
| StateDashboard.StateDashboardPage.Summary | src/pages/StateDashboard.jsx:171-180 | A summary is shown exactly when a truthy record is chosen. |
| StateDashboard.StateDashboardPage.StatesLoaded | src/pages/StateDashboard.jsx:22-28 | The states become the response when it is an array and [] otherwise. Loading ends and nothing else changes. |
| StateDashboard.StateDashboardPage.StatesFailed | src/pages/StateDashboard.jsx:24-28 | A failed fetch sets the error, empties the states and ends loading. |
| StateDashboard.StateDashboardPage.TypeSearch | src/pages/StateDashboard.jsx:93-97 | Typing sets the text and clears the choice. It opens the list exactly when the text is non-empty. |
| StateDashboard.StateDashboardPage.Focus | src/pages/StateDashboard.jsx:98 | Focusing the box opens the list when there is search text, and otherwise leaves it as it was. |
| StateDashboard.StateDashboardPage.ClickOutside | src/pages/StateDashboard.jsx:34-38 | A click outside closes the list and changes nothing else. |
| StateDashboard.StateDashboardPage.SelectStateByName | src/pages/StateDashboard.jsx:69-74 | Picking a name sets the search text to it and chooses the first record with that trimmed name, or none. The list closes. |
| DistrictDashboard.DistrictDashboardPage.constructor | src/pages/DistrictDashboard.jsx:8-17 | The initial state: nothing loaded or chosen, both searches empty, loading, no error, both lists closed. |
| DistrictDashboard.DistrictDashboardPage.Summary | src/pages/DistrictDashboard.jsx:281-290 | A summary is shown exactly when a truthy district is chosen. |
| DistrictDashboard.DistrictDashboardPage.StatesLoaded | src/pages/DistrictDashboard.jsx:28-33 | The states become the array response or []. Loading ends and nothing else changes. |
| DistrictDashboard.DistrictDashboardPage.StatesFailed | src/pages/DistrictDashboard.jsx:30-33 | A failed fetch sets the error and ends loading, and unlike the state dashboard it keeps `states`. |
| DistrictDashboard.DistrictDashboardPage.LoadDistricts | src/pages/DistrictDashboard.jsx:40-65 | With no state chosen the district list is emptied. A successful fetch stores the districts and resets the district choice and its search text. A failed fetch sets "Failed to load districts for <state>" and empties the list. |
| DistrictDashboard.DistrictDashboardPage.TypeStateSearch | src/pages/DistrictDashboard.jsx:142-146 | As written, typing sets the text, clears the state choice and opens the list exactly when the text is non-empty, but it keeps the district choice. |
| DistrictDashboard.DistrictDashboardPage.TypeStateSearchClearingDistrict | src/pages/DistrictDashboard.jsx:142-146 | The corrected handler also clears the district choice, so the summary can always be drawn. Also lines 281-283. |
| DistrictDashboard.DistrictDashboardPage.TypeDistrictSearch | src/pages/DistrictDashboard.jsx:199-209 | Typing in the district box, which only shows while a state is chosen, sets its text, clears the district choice and opens its list exactly when the text is non-empty. |
| DistrictDashboard.DistrictDashboardPage.FocusState | src/pages/DistrictDashboard.jsx:147 | Focusing the state box opens its list when it holds text. |
| DistrictDashboard.DistrictDashboardPage.FocusDistrict | src/pages/DistrictDashboard.jsx:210 | Focusing the district box opens its list when it holds text. |
| DistrictDashboard.DistrictDashboardPage.MouseDown | src/pages/DistrictDashboard.jsx:68-79 | A mouse press closes each list whose box is on screen and does not hold the press. The state box is drawn once loading ends, and the district box only while a state is chosen (line 199). A list whose box is not drawn keeps its flag, since the ref is null. Nothing else changes. |
| DistrictDashboard.HiddenListSurvivesPress | src/pages/DistrictDashboard.jsx:68-79 | Open the district list by typing, retype the state box so that the district box disappears, press the mouse, then pick the same state again: the district list shows open. Also lines 199-223. |
| DistrictDashboard.DistrictDashboardPage.SelectState | src/pages/DistrictDashboard.jsx:118-123 | Picking a state sets the text, chooses the first record with that trimmed name (or none) and closes the list. |
| DistrictDashboard.DistrictDashboardPage.SelectDistrict | src/pages/DistrictDashboard.jsx:125-130 | Picking a district sets its text, chooses the first district record with that trimmed name and closes its list. The summary is then drawable. Also line 241. |
| DistrictDashboard.TypingStateAfterPickingDistrict | src/pages/DistrictDashboard.jsx:142-146 | Picking a state and a district, then typing in the state box, leaves a district chosen with no state, so the summary, which reads `selectedState.state`, cannot be drawn. Also lines 281-283. |
| DistrictDashboard.FoundAlone | src/pages/DistrictDashboard.jsx:127 | A lone record whose name has no surrounding white space is found by that name. |
| DemandAnalysis.RemoveMarker | src/pages/DemandAnalysis.jsx:83-89 | `replace(/ \*$/, '')` drops exactly one trailing " *", and leaves a string without one unchanged. |
| DemandAnalysis.StripMarkerOfMarked | src/pages/DemandAnalysis.jsx:89 | A marked name shows as the trimmed name without its marker. |
| DemandAnalysis.StripMarkerNoop | src/pages/DemandAnalysis.jsx:89 | A name with no marker and no white space at its ends shows unchanged. |
| DemandAnalysis.StripMarkerExamples | src/pages/DemandAnalysis.jsx:89 | "Lucknow *" shows as "Lucknow", and "Kanpur Nagar" shows unchanged. |
| DemandAnalysis.StripMarkerTwice | src/pages/DemandAnalysis.jsx:83-89 | Stripping is not idempotent: "a * *" shows as "a *", which strips again to "a". |
| DemandAnalysis.WithData | src/pages/DemandAnalysis.jsx:105-107 | The response with its `data` replaced by the given rows, every other field left as it was. |
| DemandAnalysis.DistrictOptions | src/pages/DemandAnalysis.jsx:88-90 | The options are every row's stripped name, with repeats, in the order the rows stand in the page state. After the first render that is the sorted order. |
| DemandAnalysis.SelectedDistrictData | src/pages/DemandAnalysis.jsx:80-85 | With no or an empty chosen name, or no rows, nothing is selected. Otherwise the result is the first row, in the rows' current order, whose stripped name equals the trimmed chosen name, and nothing when no row matches. |
| DemandAnalysis.PickedDistrictFound | src/pages/DemandAnalysis.jsx:80-90 | Picking the option of a row with a string district finds a row. Also line 232. |
| DemandAnalysis.SortByStationsNeeded | src/pages/DemandAnalysis.jsx:105-107 | The in-place sort leaves the array ordered by stations needed, largest first, as a permutation of the old contents. An array already in that order is left unchanged, as a stable sort leaves it. |
| DemandAnalysis.InsertionSortDesc | src/pages/DemandAnalysis.jsx:105-107 | An insertion sort by key, largest first, gives a sorted permutation of the array. |
| DemandAnalysis.SinkLeft | src/pages/DemandAnalysis.jsx:105-107 | One insertion step extends the sorted prefix by one element and keeps the multiset. |
| DemandAnalysis.Swap | src/pages/DemandAnalysis.jsx:105-107 | A swap exchanges two elements and keeps the multiset. |
| DemandAnalysis.SortedDistricts | src/pages/DemandAnalysis.jsx:105-107 | `sortedDistricts` is the rows sorted by stations needed, largest first, as a permutation. Rows already in order come back unchanged. |
| DemandAnalysis.TopTen | src/pages/DemandAnalysis.jsx:347 | `slice(0, 10)` is the first min(10, n) rows. |
| DemandAnalysis.TopTenLargest | src/pages/DemandAnalysis.jsx:105-107 | No row left out of the table needs more stations than a row in it. Also line 347. |
| DemandAnalysis.Highest | src/pages/DemandAnalysis.jsx:331 | `Math.max` of no rows is −Infinity (None). Otherwise it is the need of some row and at least every row's need. |
| DemandAnalysis.DataLength | src/pages/DemandAnalysis.jsx:327 | `data?.length \|\| 0` is the number of rows when `data` is an array. |
| DemandAnalysis.StateOverview | src/pages/DemandAnalysis.jsx:326-331 | The overview counts the rows. Its mean is the total stations divided by the row count (by 1 for no rows), rounded. The highest need is absent exactly when there are no rows. |
| DemandAnalysis.OverviewIgnoresOrder | src/pages/DemandAnalysis.jsx:105-107 | The overview depends on the rows only as a multiset, so sorting does not change it. Also lines 326-331. |
| DemandAnalysis.HighestIgnoresOrder | src/pages/DemandAnalysis.jsx:331 | The highest need is the same for any permutation of the rows. |
| DemandAnalysis.AverageAtMostHighest | src/pages/DemandAnalysis.jsx:330-331 | The mean station count shown is at most the highest need, rounded. |
| DemandAnalysis.MeanAtMostHighest | src/pages/DemandAnalysis.jsx:330-331 | The mean need of some rows is at most their highest need. |
| DemandAnalysis.DemandAnalysisPage.constructor | src/pages/DemandAnalysis.jsx:8-16 | The initial state: nothing loaded or chosen, empty search, loading, no error, both lists closed. |
| DemandAnalysis.DemandAnalysisPage.StatesLoaded | src/pages/DemandAnalysis.jsx:28-33 | The states become the array response or []. Loading ends and nothing else changes. |
| DemandAnalysis.DemandAnalysisPage.StatesFailed | src/pages/DemandAnalysis.jsx:29-33 | A failed fetch sets the error, ends loading and keeps `states`. |
| DemandAnalysis.DemandAnalysisPage.LoadStations | src/pages/DemandAnalysis.jsx:39-63 | With no state chosen the rows and the district are cleared. A successful fetch stores the response and clears the error. A failed fetch sets "Failed to load stations for <state>" and clears the rows. |
| DemandAnalysis.DemandAnalysisPage.TypeStateSearch | src/pages/DemandAnalysis.jsx:135-141 | Typing clears the state, the district, the rows and the error. It opens the list exactly when the text is non-empty. |
| DemandAnalysis.DemandAnalysisPage.FocusState | src/pages/DemandAnalysis.jsx:143 | Focusing the state box opens its list when it holds text. |
| DemandAnalysis.DemandAnalysisPage.SelectState | src/pages/DemandAnalysis.jsx:109-115 | Picking a state chooses the first record with that trimmed name (or none), resets the district and closes the list. |
| DemandAnalysis.DemandAnalysisPage.TypeDistrict | src/pages/DemandAnalysis.jsx:200 | Typing in the district box makes the text the chosen name. |
| DemandAnalysis.DemandAnalysisPage.FocusDistrict | src/pages/DemandAnalysis.jsx:201 | Focusing the district box always opens its list. |
| DemandAnalysis.DemandAnalysisPage.SelectDistrict | src/pages/DemandAnalysis.jsx:117-120 | Picking a district sets the chosen name and closes its list. |
| DemandAnalysis.DemandAnalysisPage.Render | src/pages/DemandAnalysis.jsx:80-107 | One render reads the options and the chosen row from the rows as they stand. It then sorts the page state's own `data` array in place, so the state afterwards holds the sorted rows and later renders read that order. A second render does not reorder. Nothing else changes. |
| DemandAnalysis.DemandAnalysisPage.MouseDown | src/pages/DemandAnalysis.jsx:66-77 | A mouse press closes each list whose box is on screen and does not hold the press. The state box is drawn once loading ends, and the district box only while a state and its rows are present (line 195). A list whose box is not drawn keeps its flag. Nothing else changes. |
| MigrationAnalysis.CleanDistrictName | src/pages/MigrationAnalysis.jsx:241 | `d.trim().replace(/\*/g, '')` holds no '*' and is never longer than d. |
| MigrationAnalysis.DistrictEntry | src/pages/MigrationAnalysis.jsx:240-246 | An entry adds a name exactly when it is a non-empty string whose cleaned form is longer than two characters and not skipped, and the name added is the cleaned form. |
| MigrationAnalysis.DistrictSetMembers | src/pages/MigrationAnalysis.jsx:238-248 | The set holds exactly the cleaned forms of the kept string entries. None holds a '*', is two characters or shorter, or lower-cases to a skipped name. |
| MigrationAnalysis.CleanDistrictList | src/pages/MigrationAnalysis.jsx:238-249 | The district list of every tab is sorted without repeats and holds exactly the set's names. Also lines 376-387, 482-493, 593-604. |
| MigrationAnalysis.MarkerLeavesSpace | src/pages/MigrationAnalysis.jsx:241 | Trimming comes before the '*' removal, so "Lucknow *" is listed as "Lucknow " with a trailing space. |
| MigrationAnalysis.SiddharthNagarSkipped | src/pages/MigrationAnalysis.jsx:243-244 | Siddharth Nagar is skipped in any letter case. |
| MigrationAnalysis.StateEntry | src/pages/MigrationAnalysis.jsx:764-770 | A state entry is kept exactly when it is a non-empty string whose `toLowerCase().trim()` is a key of the alias table with a non-empty value, and it then yields that value. |
| MigrationAnalysis.StateSetCanonical | src/pages/MigrationAnalysis.jsx:709-770 | The set holds exactly the names the entries yield, and each is a canonical name of the alias table. |
| MigrationAnalysis.NormalizeStates | src/pages/MigrationAnalysis.jsx:763-773 | The state list is sorted without repeats and holds exactly the canonical names of the mapped entries. |
| MigrationAnalysis.AliasesMerge | src/pages/MigrationAnalysis.jsx:709-770 | "orissa" and " odisha " collect to the one name "Odisha". |
| MigrationAnalysis.Entries | src/pages/MigrationAnalysis.jsx:239 | `(data.districts \|\| []).forEach` throws, so yields nothing, for a null body or a truthy field that is not an array. It iterates the array when there is one, and no entries for a falsy field. Also line 764. |
| MigrationAnalysis.Present | src/pages/MigrationAnalysis.jsx:621-624 | `filter(r => r !== null)` keeps exactly the responses that arrived with a body other than JSON `null`. A failed fetch and a `null` body are both dropped. |
| MigrationAnalysis.CompareResultsOrdered | src/pages/MigrationAnalysis.jsx:618-624 | The compare results are in descending order of `(average_migration_index \|\| 0)`, and each arrived non-null response is kept as often as it arrived. |
| MigrationAnalysis.SubmitGuard | src/pages/MigrationAnalysis.jsx:164 | The state tab needs a state. The district, trends and forecast tabs need a state and a district. The pincode tab needs a pincode. The compare tab needs a state and at least two districts. Also lines 259, 308, 397, 503, 614. |
| MigrationAnalysis.GuardAndFailureDiffer | src/pages/MigrationAnalysis.jsx:164-172 | A tab's guard message is never its failure message. Also lines 614-626. |
| MigrationAnalysis.TabForm.constructor | src/pages/MigrationAnalysis.jsx:157-161 | A tab starts with empty selections, no data, not loading and no error. Also lines 218-224, 573-579. |
| MigrationAnalysis.TabForm.ChooseState | src/pages/MigrationAnalysis.jsx:226-231 | An emptied state clears the district list and the district, or the chosen districts on the compare tab. A non-empty state keeps them until its list arrives. Also lines 581-586. |
| MigrationAnalysis.TabForm.DistrictsArrived | src/pages/MigrationAnalysis.jsx:232-250 | An arrived district list replaces the tab's districts with the sorted set of cleaned names, and changes nothing else. A body whose `districts` cannot be iterated throws inside `try` and leaves the old list. |
| MigrationAnalysis.TabForm.ChooseDistrict | src/pages/MigrationAnalysis.jsx:280 | Choosing a district sets it and changes nothing else. |
| MigrationAnalysis.TabForm.ChooseDistricts | src/pages/MigrationAnalysis.jsx:644 | Choosing several districts sets them and changes nothing else. |
| MigrationAnalysis.TabForm.EnterPincode | src/pages/MigrationAnalysis.jsx:328 | Entering a pincode sets it and changes nothing else. |
| MigrationAnalysis.TabForm.Submit | src/pages/MigrationAnalysis.jsx:163-166 | A fetch starts exactly when the guard passes, with loading on and the error cleared. Otherwise the guard message is shown and nothing is fetched. Also lines 258-261, 307-310, 396-399, 502-505, 613-616. |
| MigrationAnalysis.TabForm.Received | src/pages/MigrationAnalysis.jsx:169-174 | The fetched body becomes the tab's data and loading ends. |
| MigrationAnalysis.TabForm.ReceivedAll | src/pages/MigrationAnalysis.jsx:618-628 | The compare results become the sorted arrived responses and loading ends. |
| MigrationAnalysis.TabForm.Failed | src/pages/MigrationAnalysis.jsx:171-174 | A failed fetch shows the tab's failure message and ends loading. Also lines 266-269, 625-628. |
| MigrationAnalysis.MigrationAnalysisPage.constructor | src/pages/MigrationAnalysis.jsx:697-699 | The page starts on the state tab with no states, loading. |
| MigrationAnalysis.MigrationAnalysisPage.StatesFetched | src/pages/MigrationAnalysis.jsx:701-780 | Loading ends. A failed fetch keeps the list, and so does a body whose `states` cannot be iterated. Otherwise the list becomes the sorted set of canonical names. |
| MigrationAnalysis.MigrationAnalysisPage.SelectTab | src/pages/MigrationAnalysis.jsx:805 | A tab click switches the active tab only. |
| MigrationForecastPage.GetMigrationColor | src/pages/MigrationForecast.jsx:107-112 | Red above 3, orange above 2 up to 3, yellow above 1 up to 2, green otherwise. A missing value is green. |
| MigrationForecastPage.ColorBoundaries | src/pages/MigrationForecast.jsx:107-112 | The thresholds are strict: 3 is orange, 2 is yellow, 1 and a missing value are green. |
| MigrationForecastPage.ColorMatchesStatus | src/pages/MigrationForecast.jsx:107-112 | Each colour names the same tier as the backend's status label of the same index (backend/forecasting.py:536-545). |
| MigrationForecastPage.TopGrowthColorsAgree | src/pages/MigrationForecast.jsx:451 | In the top-growth table, a row is red exactly when its status is "Very High Migration" and green exactly when it is "Low Migration". |
| MigrationForecastPage.DetailOr | src/pages/MigrationForecast.jsx:70-98 | `data.detail \|\| fallback` is the server's detail when it is truthy, and the page's own message otherwise. |
| MigrationForecastPage.DetailOrIsAnError | src/pages/MigrationForecast.jsx:70-98 | A refused request always leaves a truthy error. |
| MigrationForecastPage.MigrationForecastPage.constructor | src/pages/MigrationForecast.jsx:19-28 | The page starts with empty lists and choices, 30 days, the "prophet" method, no results, not loading and no error. |
| MigrationForecastPage.MigrationForecastPage.StatesLoaded | src/pages/MigrationForecast.jsx:30-35 | The state list becomes the reply's `states`, and nothing else changes. |
| MigrationForecastPage.MigrationForecastPage.ChooseState | src/pages/MigrationForecast.jsx:38-48 | Choosing a state sets it. Its districts are requested exactly when it is non-empty, and the districts in hand stay until they arrive. Also line 158. |
| MigrationForecastPage.MigrationForecastPage.DistrictsLoaded | src/pages/MigrationForecast.jsx:43-46 | The arrived districts replace the list and the chosen district is cleared. |
| MigrationForecastPage.MigrationForecastPage.ChooseDistrict | src/pages/MigrationForecast.jsx:182 | Choosing a district sets it and changes nothing else. |
| MigrationForecastPage.MigrationForecastPage.HandleForecast | src/pages/MigrationForecast.jsx:51-63 | No query is made exactly when the state or the district is missing, and then only the error is set. Otherwise the page is loading, the error and the old forecast are cleared, and the query carries the current choices. |
| MigrationForecastPage.MigrationForecastPage.ForecastReplied | src/pages/MigrationForecast.jsx:64-76 | A successful reply is stored. A refused one sets the server's detail or "Forecast failed". Loading ends either way. |
| MigrationForecastPage.MigrationForecastPage.ForecastUnreached | src/pages/MigrationForecast.jsx:72-76 | An unreachable server sets the connection message and ends loading. |
| MigrationForecastPage.MigrationForecastPage.HandleTopGrowth | src/pages/MigrationForecast.jsx:79-91 | No query is made exactly when no state is chosen, and then only the error is set. Otherwise the page is loading, the error and the old table are cleared, and the query names the state. |
| MigrationForecastPage.MigrationForecastPage.TopGrowthReplied | src/pages/MigrationForecast.jsx:92-104 | A successful reply is stored. A refused one sets the server's detail or "Failed to fetch top growth". Loading ends either way. |
| MigrationForecastPage.MigrationForecastPage.TopGrowthUnreached | src/pages/MigrationForecast.jsx:100-104 | An unreachable server sets "Failed to connect to API" and ends loading. |
| MigrationForecastPage.PickStateThenForecast | src/pages/MigrationForecast.jsx:38-55 | After a new state's districts arrive, the forecast button is refused with "Please select both state and district" until a district is picked again. |
| DataCleaningPage.RatioColor | src/pages/data-cleaning/DataCleaning.jsx:72-76 | Red above 50, amber above 20 up to 50, green at 20 or below. |
| DataCleaningPage.RatioColorBoundaries | src/pages/data-cleaning/DataCleaning.jsx:72-76 | Both thresholds are strict: 50 is amber and 20 is green. |
| DataCleaningPage.RatioColorMonotone | src/pages/data-cleaning/DataCleaning.jsx:72-76 | A larger ratio is never a milder colour. |
| DataCleaningPage.SimilarityWidth | src/pages/data-cleaning/DataCleaning.jsx:78 | The bar is the similarity as a percentage, never below 20. |
| DataCleaningPage.SimilarityWidthMonotone | src/pages/data-cleaning/DataCleaning.jsx:78 | A more similar pair never has a narrower bar. |
| DataCleaningPage.Toggled | src/pages/data-cleaning/DataCleaning.jsx:147 | Clicking card idx expands it exactly when it was not expanded, and collapses everything when it was. |
| DataCleaningPage.ToggleTwice | src/pages/data-cleaning/DataCleaning.jsx:147 | Two clicks on a card restore the previous state exactly when no card or that same card was expanded. |
| DataCleaningPage.ToggleTwiceFromOther | src/pages/data-cleaning/DataCleaning.jsx:147 | With another card expanded, two clicks collapse everything. |
| DataCleaningPage.DataCleaningPage.constructor | src/pages/data-cleaning/DataCleaning.jsx:15 | No card starts expanded. |
| DataCleaningPage.DataCleaningPage.Toggle | src/pages/data-cleaning/DataCleaning.jsx:146-147 | After a click, card idx is expanded exactly when it was not before, and every other card is collapsed. |
| DataCleaningPage.DatasetTitle | src/pages/data-cleaning/DataCleaning.jsx:466 | The title has the name's length and no '_'. |
| DataCleaningPage.DatasetLabel | src/pages/data-cleaning/DataCleaning.jsx:296 | The label has the name's length and no '_'. |
| DataCleaningPage.TitleOfTwoWords | src/pages/data-cleaning/DataCleaning.jsx:466 | Two lower-case words joined by '_' become two capitalised words joined by a space. |
| DataCleaningPage.BiometricUpdateTitle | src/pages/data-cleaning/DataCleaning.jsx:466 | "biometric_update" is titled "Biometric Update". |
| DataCleaningPage.TitleIdempotent | src/pages/data-cleaning/DataCleaning.jsx:466 | Titling a title changes nothing. |
| DataCleaningPage.LabelIsUpperTitle | src/pages/data-cleaning/DataCleaning.jsx:296 | A dataset's label is its title upper-cased. Also line 466. |
| DataCleaningPage.SampleRows | src/pages/data-cleaning/DataCleaning.jsx:593 | A card shows a prefix of the samples, eight of them when there are at least eight. |
| NationalInsightsPage.CapacityLabel | src/pages/NationalInsights.jsx:75-80 | Elevated above 1e8, high above 5e7 up to 1e8, moderate above 1e7 up to 5e7, low otherwise. |
| NationalInsightsPage.CapacityBgClass | src/pages/NationalInsights.jsx:67-73 | The same four tiers, read off `capacity_signal?.national_service_load_index \|\| 0`. |
| NationalInsightsPage.ClassAndLabelAgree | src/pages/NationalInsights.jsx:67-80 | The card's class and its label always name the same tier. |
| NationalInsightsPage.MissingIndexIsLow | src/pages/NationalInsights.jsx:68 | Insights with no capacity signal, or a zero index, show the lowest tier. |
| NationalInsightsPage.LoadIndexOfBackend | src/pages/NationalInsights.jsx:68 | The index the backend sends is the index the page classifies. |
| NationalInsightsPage.LabelAgreesWithHint | src/pages/NationalInsights.jsx:75-80 | The page's tiers match the backend's capacity hint (backend/app/services/insight_engine.py:181-186) except at exactly 5e7 and 1e8. There the page's strict thresholds put the index one tier lower. |
| NationalInsightsPage.ConcentrationClass | src/pages/NationalInsights.jsx:82-88 | The card is high exactly when the risk flag is the string "HIGH_CONCENTRATION". |
| NationalInsightsPage.ConcentrationClassOfBackend | src/pages/NationalInsights.jsx:82-88 | With the backend's flag (backend/app/services/insight_engine.py:143), the card is high exactly when the top three states hold more than 45 percent. |
| NationalInsightsPage.RiskExplanation | src/pages/NationalInsights.jsx:57-65 | The four known flags get their own sentence. Any other flag gets the default one. |
| NationalInsightsPage.BackendFlagsExplained | src/pages/NationalInsights.jsx:57-65 | Every flag the backend can raise (backend/app/services/insight_engine.py:241-250) is one of the four known flags. |
| NationalInsightsPage.RiskBadge | src/pages/NationalInsights.jsx:213 | The badge has the flag's length, a space exactly where the flag had '_' or a space, and no lower-case letter. |
| NationalInsightsPage.BadgeOfUpperFlag | src/pages/NationalInsights.jsx:213 | An upper-case flag's badge is the flag with spaces for '_'. |

## Left out

- HTTP and async plumbing are left out: every `fetch`, `useEffect` request, FastAPI route and router. Each handler takes the reply (or its failure) as a parameter and returns the query it would send.
- Database access is left out: the SQLAlchemy queries in backend/main.py and backend/forecasting.py. Their results are input sequences of records.
- File I/O is left out: backend/app/services/data_loader.py, `load_logs`, `save_log` and `to_csv` in data_cleaner.py, and the CSV read in district_anomaly_detector.py. The frames they produce are inputs. The log timestamp of `clean_dataset` is a parameter, since it comes from the clock.
- The forecasting numerics are left out: Prophet, ARIMA, `np.polyfit`, `_calculate_trend` and `ensemble_forecast` with its five-point minimum (backend/forecasting.py:253-453). They are library numerics. A forecast reaches the model as a parameter drawn from the result the caller supplies.
- difflib is left out: `get_close_matches` and `SequenceMatcher.ratio` are oracle parameters. A soundness predicate says what the model relies on: candidates come from the given list and meet the cutoff, and a similarity lies in [0, 1].
- `pd.to_datetime` and `datetime.fromisoformat` are left out. Dates are integer day numbers, or `Option` when a value does not parse. A record for the month buckets arrives with its date already parsed into a year (1 to 9999) and a month (1 to 12). Its bucket key is the integer year·100 + month rather than the string "YYYY-MM".
- InsightEngine.Months: for a year before 1000 the source's unpadded year string ("999-05") sorts after "1000-01". The integer key sorts it before, so the model's month order is chronological where the source's is not.
- Floating point is left out: every count and weight is an exact real. `Math.round` is `floor(x + 0.5)`. Python's `round(x, 2)` rounds halves up, where CPython rounds the binary float half to even. `toLocaleString` and `toFixed` formatting are left out.
- The `int()` casts of `aggregate_national` (backend/app/services/aggregations.py:18-33) are left out: the sums are kept as reals.
- Pandas merge and groupby internals are left out. `aggregate_state` is modelled as per-state sums over the union of states, with missing counts read as 0, combined by the renaming that `merge` applies to shared column names. Column order is not modelled.
- Forecasting.GetHistoricalData: the final `groupby('date')` mean/sum and the sort by date (backend/forecasting.py:243-250) are not modelled. Rows that share a date are not merged, and the rows keep the query's order, which is by date.
- JavaScript coercion: a count field that holds `true` reads as 1, and any other falsy value reads as 0. A truthy string, object or array reads as 0, where JavaScript would coerce a numeric string or concatenate. NaN is not modelled.
- A TypeError thrown by calling a string method on a value that is not a string is left out. A `null` record reads as an object with no fields. The cases:
  - reading a field of `null` in a few `s.state?.` chains;
  - StateDashboard.FindByName: a numeric `state` makes `s.state?.trim()` throw (src/pages/StateDashboard.jsx:71-72), where the model reads no name;
  - DemandAnalysis.RowName and DemandAnalysis.MatchesDistrict: a district that is not a string makes `d.district.replace` throw (src/pages/DemandAnalysis.jsx:82, 89), where the model gives the empty name or no match;
  - DemandAnalysis.Rows: a truthy `data` that is not an array makes `.map` and `.sort` throw, where the model reads no rows.
- The order of equal keys after a sort is not modelled. A sort is specified as ordered and a permutation, so ties may come out in any order. The one exception is the demand page's sort, which leaves rows already in order as they are. `localeCompare` is modelled as code-unit order; locale collation is not modelled.
- Aggregations.AggregateState: when the suffixed names of a merge would clash, pandas either raises `MergeError` or keeps two columns under one label. The model gives no result for both cases.
- Aggregations.DistrictFrame: `drop(columns=["pincode"])` raises `KeyError` on a dataset without a `pincode` column. The model drops nothing there.
- Unicode is left out: `isdigit`, `str.title`, `lower`, `upper`, `strip`, `trim` and `\w` act on ASCII letters, digits and white space only.
- Hover state, CSS and layout are left out, as are the chart data of the map page's service composition (src/pages/Map.jsx:81-96). Those are the same sums as `NationalDashboard.Totals`.
- The commentary and methodology strings of `generate_national_insights` and the page subtitle of src/pages/NationalInsights.jsx:53-55 are left out. They are fixed text and formatting.
- The year, date, day-count and method inputs of the migration analysis tabs are left out, and so is the echo of state and district in the pincode reply. They are passed through to the query unchanged.
- TimeUtils.TimeSpanDays works on values, so the caller's frame is unchanged by construction, not by a proof about a copy.

## Findings

| source | as written | input that shows it | evidently intended | confidence | as-written member | corrected member |
|---|---|---|---|---|---|---|
| src/pages/DistrictDashboard.jsx:142-146 | Typing in the state box clears the selected state but keeps the selected district. The district summary at lines 281-283 then reads `selectedState.state` of a `null` state, so it cannot be drawn. | Pick state "Goa", then its district "Ama", then type "G" in the state box. | Typing in the state box clears the district as well, as loading a new state's districts does at lines 55-56. | not executed | DistrictDashboard.DistrictDashboardPage.TypeStateSearch, DistrictDashboard.TypingStateAfterPickingDistrict | DistrictDashboard.DistrictDashboardPage.TypeStateSearchClearingDistrict |
