# BahaLaNa flood-risk core, modelled in Dafny

BahaLaNa estimates flood risk for a point in the Philippines. It combines
NASA POWER daily climate values with NASA GPM IMERG rainfall granules and
MODIS flood detections. This project models the deterministic core of
that system and proves properties of the model:

- **The risk endpoint** (`RiskScorer`). It scores a point from its POWER
  precipitation and humidity and from the number of IMERG granules. The
  score is rule by rule:
  - maximum daily rain: +40, +25 or +10;
  - average rain: +20 or +10;
  - humidity: +15 or +5;
  - satellite data: +5.

  The level is HIGH at 60 and up, MEDIUM at 30 and up, LOW below 30. The
  model covers the error answers of both copies of the endpoint:
  `backend/app/routes/flood_risk.py`, where IMERG is optional, and
  `backend/app.py`, which answers 401 without credentials.
- **The POWER and IMERG endpoints** (`PowerRoute`, `ImergRoute`). These are:
  - the pivot of POWER's per-parameter maps into one ascending record per
    date;
  - the Authorization fallback to the configured token;
  - the choice of the download link;
  - the temporary file suffix;
  - the metadata projection.
- **The string helpers** of `backend/app/utils.py` (`AppUtils`). These are
  the date-format switch and the bounding-box text, with their round trips.
- **The data scripts**:
  - the POWER and IMERG parsing loops (`FetchScripts`);
  - MODIS detection, deduplication and the fallback labeller
    (`ModisIntegration`);
  - the nine-criterion, three-tier flood labeller with its MODIS override
    (`FloodLabels`);
  - per-location rolling, lag, run-length and seasonal features
    (`Features`);
  - the deterministic bookkeeping around model training (`Training`).
- **The frontend helpers**:
  - geographic helpers (`GeoUtils`);
  - the risk colours and base point of the map (`FloodMap`);
  - the Tailwind class lookups (`FloodRiskApi`);
  - POWER date formatting and `Object.entries` ordering (`PowerApi`).
- **The three zustand stores**, as classes whose methods update their
  fields: `UiStore.Store`, `MapStore.Store` and `FloodStore.Store`.

The source works in several styles, and the model follows each:

- Pure computations are functions over datatypes.
- Loops in the source are methods with loop invariants, each proved
  against a specification function:
  - `ScoreRisk`, `PivotByDate`, `SelectDownloadUrl`;
  - `ApplyLabelPasses` (masked passes over an `array`);
  - `AddLagColumns`, `ImportanceValues`, `CollectHits`, the script
    parsing loops.
- The stores are classes. Their methods carry `modifies` clauses, and
  their `ensures` state the whole new state.

Shared helpers live in modules of their own:

- `Wrappers`: Option and Result.
- `Text`: dash stripping, splitting, decimal parsing, ISO dates and string
  order.
- `Sorting`: an insertion sort proved sorted and a permutation.
- `Series`: sums, trailing windows and per-group histories, which give
  pandas `groupby(...).rolling/shift` semantics.

Where the repository's prose and its code disagree, the model follows the
code:

- The humidity rule adds 15 or 5 points, not 10 or 3.
- There is no geographic multiplier or location bonus.
- The score is not clamped; it is at most 80 (`ScoreRange`).

## Model

| member | source | states |
|---|---|---|
| RiskScorer.ValidPrecipitation | backend/app/routes/flood_risk.py:88-88 | only present, non-negative values are kept, every such value is kept, and nothing else appears |
| RiskScorer.ValidPrecipitationAppend | backend/app/routes/flood_risk.py:88-88 | filtering a concatenation filters each part, in order; with the next row this fixes the list, repeats and order included |
| RiskScorer.ValidPrecipitationSingle | backend/app/routes/flood_risk.py:88-88 | one reading is kept exactly when it is present and non-negative |
| RiskScorer.PresentValues | backend/app/routes/flood_risk.py:93-94 | the humidity values are exactly the present ones |
| RiskScorer.PresentValuesAppend | backend/app/routes/flood_risk.py:93-94 | keeping the present values of a concatenation keeps each part's, in order |
| RiskScorer.PresentValuesSingle | backend/app/routes/flood_risk.py:93-94 | one reading is kept exactly when it is present |
| RiskScorer.MaxOr0 | backend/app/routes/flood_risk.py:90-90 | the maximum bounds every value and is one of them; an empty list gives 0 |
| RiskScorer.MeanOr0 | backend/app/routes/flood_risk.py:89-89 | for a non-empty list the average times the count is the sum; 0 for an empty list; never above the maximum; non-negative for non-negative values |
| Series.Mean | backend/app/routes/flood_risk.py:89-89 | `sum / len`: the mean times the count is the sum; never above the maximum; non-negative for non-negative values |
| RiskScorer.ScoreRisk | backend/app/routes/flood_risk.py:98-136 | the rule-by-rule score and factor list equal the specification functions, and the level is HIGH iff score >= 60, MEDIUM iff 30 <= score < 60, LOW iff score < 30 |
| RiskScorer.SatelliteFactors | backend/app/routes/flood_risk.py:126-128 | the satellite factor is listed exactly when at least one granule was found |
| RiskScorer.FactorsExplainScore | backend/app/routes/flood_risk.py:98-128 | at most one factor per rule, in rule order, and the factors' points add up to the score |
| RiskScorer.ScoreRange | backend/app/routes/flood_risk.py:98-128 | the score lies between 0 and 80 for every input |
| RiskScorer.ScoreMonotone | backend/app/routes/flood_risk.py:98-136 | more rain, humidity or granules never lower the score or the level |
| RiskScorer.AvgTermAtMostMaxTerm | backend/app/routes/flood_risk.py:88-90 | over the endpoint's own precipitation values, the average term is at most the maximum |
| RiskScorer.RouteImergGranules | backend/app/routes/flood_risk.py:33-56 | the granule count is 0 without credentials or without a feed, and is the feed's count otherwise |
| RiskScorer.AvgTemperature | backend/app/routes/flood_risk.py:155-155 | no temperature map gives null; a map with only nulls fails with 500 (the division by zero) |
| RiskScorer.BuildAssessment | backend/app/routes/flood_risk.py:138-162 | the response is `Assessment`; it fails exactly when the temperature average fails; otherwise it carries the scored level, score, factors and summary |
| RiskScorer.Assessment | backend/app/routes/flood_risk.py:86-162 | a server error exactly when the temperature average fails; otherwise the factors' points sum to the score, the score is in 0..80, the level follows the 60/30 thresholds, the satellite factor appears iff granules were found, and the summary's maximum bounds its average |
| RiskScorer.AssessFloodRisk | backend/app/routes/flood_risk.py:26-162 | a missing POWER answer is 500; otherwise the response is `Assessment` of the POWER maps with the granule count of the optional IMERG step, failing iff the temperature average fails, with that score, level and factors |
| RiskScorer.AssessFloodRiskStrict | backend/app.py:270-424 | no header and no token is 401; a missing answer is 500; otherwise the response is `Assessment` of the POWER maps with the feed's granule count, failing iff the temperature average fails, with that score, level and factors |
| ImergRoute.ResolveAuthorization | backend/app/routes/imerg.py:19-26 | a non-empty header is used as is, else "Bearer " + token, else 401 exactly when both are empty |
| ImergRoute.AuthorizationNonEmpty | backend/app/routes/imerg.py:19-26 | the value sent upstream is never empty |
| ImergRoute.FirstWhere | backend/app/routes/imerg.py:50-65 | the index found satisfies the test and no earlier link does; none means no link does |
| ImergRoute.DownloadUrlExists | backend/app/routes/imerg.py:50-65 | a URL is found exactly when some link has a non-empty href |
| ImergRoute.DownloadUrlPrefersData | backend/app/routes/imerg.py:50-58 | when some link is a data link, the URL chosen is a data link's, never a plain link's |
| ImergRoute.SelectDownloadUrl | backend/app/routes/imerg.py:50-65 | the two scanning loops return the specification's choice of URL |
| ImergRoute.SplitExt | backend/app/routes/imerg.py:74-74 | the extension is empty or a '.'-led suffix of the URL with no further '.' |
| ImergRoute.SplitExtSpec | backend/app/routes/imerg.py:74-74 | the extension is non-empty iff the last '.' follows the last '/' with a non-'.' character between them, and then it is the text from that '.' |
| ImergRoute.OnlyLastDotCuts | backend/app/routes/imerg.py:74-74 | only the last '.' can start the extension |
| ImergRoute.CutCondition | backend/app/routes/imerg.py:74-74 | the last '.' starts the extension iff a non-'.' character lies between the last '/' and it |
| ImergRoute.NoCutAfterSlash | backend/app/routes/imerg.py:74-74 | a '.' right after a '/' never starts an extension |
| ImergRoute.SplitExtGranuleFile | backend/app/routes/imerg.py:74-74 | `dir/base.ext` has extension `.ext` (so "a/b.HDF5" gives ".HDF5") |
| ImergRoute.SplitExtDotInDirectory | backend/app/routes/imerg.py:74-74 | a '.' only in a directory gives no extension (so "a.b/c" gives "") |
| ImergRoute.SplitExtHiddenFile | backend/app/routes/imerg.py:74-74 | a name that only starts with '.' has no extension (so "/x/.hidden" gives "") |
| ImergRoute.SplitExtInFinalComponent | backend/app/routes/imerg.py:74-74 | the extension never contains a '/' |
| ImergRoute.TempSuffix | backend/app/routes/imerg.py:74-74 | the suffix is the URL's extension, or ".h5" when there is none; it always starts with '.' |
| ImergRoute.PlanImergDownload | backend/app/routes/imerg.py:16-78 | 401 without credentials, 404 for an empty feed or a granule without a URL; otherwise the first granule's URL and suffix |
| ImergRoute.Summarize | backend/app/routes/imerg.py:143-153 | each granule summary copies its entry's fields, with missing links as [] |
| ImergRoute.SummarizeEntries | backend/app/routes/imerg.py:143-153 | one summary per entry, in feed order |
| ImergRoute.ImergMetadata | backend/app/routes/imerg.py:118-159 | 401 exactly without credentials; otherwise count = number of entries, total hits defaulting to that count, one summary per entry |
| PowerRoute.DatesOf | backend/app/routes/power.py:53-55 | a date is in the union iff some parameter has a value for it |
| PowerRoute.UnionOfDates | backend/app/routes/power.py:53-55 | the `dates.update` loop computes that union |
| PowerRoute.SortedDates | backend/app/routes/power.py:58-58 | `sorted(dates)` lists every date once, strictly ascending |
| PowerRoute.Get | backend/app/routes/power.py:61-61 | `.get(date)` is present iff the date is a key, with that key's value |
| PowerRoute.RecordFor | backend/app/routes/power.py:57-62 | a day's record holds the date and each parameter's value, in parameter order |
| PowerRoute.RecordOn | backend/app/routes/power.py:59-62 | the inner loop builds that day's record |
| PowerRoute.RecordsOn | backend/app/routes/power.py:57-62 | the outer loop builds one record per date, in the order given |
| PowerRoute.PivotByDate | backend/app/routes/power.py:53-62 | one record per date of the union, strictly ascending, each holding that date's values |
| PowerRoute.PivotDeterminedByDates | backend/app/routes/power.py:53-62 | any two ascending one-record-per-date listings of the union are equal, so the pivot is unique |
| PowerRoute.FetchPowerData | backend/app/routes/power.py:47-80 | 500 exactly when `parameter` is missing; otherwise the request echo, `parameters_info` passed through (default empty), the pivoted records and the version (default "unknown") |
| AppUtils.ConvertDateFormat | backend/app/utils.py:24-40 | to YYYYMMDD, every dash is removed; an 8-character input to YYYY-MM-DD gets dashes after the year and month; anything else is returned unchanged |
| AppUtils.BasicToExtendedSameDate | backend/app/utils.py:37-39 | dashing a valid YYYYMMDD date gives the same calendar date in YYYY-MM-DD form |
| AppUtils.BasicRoundTrip | backend/app/utils.py:24-40 | a dash-free 8-character string survives dashing and then undashing |
| AppUtils.ExtendedRoundTrip | backend/app/utils.py:24-40 | a valid YYYY-MM-DD date survives undashing and then dashing |
| AppUtils.CenterOf | backend/app/utils.py:43-59 | a centre exists iff exactly four numbers were read, and it is the midpoint of the two latitude and two longitude values |
| AppUtils.CreatedBoxFields | backend/app/utils.py:62-74 | split at commas, the created box text gives back its four fields |
| AppUtils.CenterOfCreatedBox | backend/app/utils.py:43-74 | the centre of the box created around a point is that point, whenever the numbers read back |
| AppUtils.CenterOfCreatedBoxWith | backend/app/utils.py:43-74 | the same round trip holds for any number reader that reads the rendered numbers back |
| FetchScripts.CollectMembers | backend/scripts/fetch_power_data.py:90-112 | the append-if-kept loop collects a value exactly when some item yields it |
| FetchScripts.CollectPrefix | backend/scripts/fetch_imerg_data.py:79-99 | results follow item order: a prefix of the items gives a prefix of the results |
| FetchScripts.Keys | backend/scripts/fetch_power_data.py:88-88 | the T2M dates are the map's keys in order |
| FetchScripts.Lookup | backend/scripts/fetch_power_data.py:101-104 | `.get(date)` is a value stored under that date, and absent for an unknown date |
| FetchScripts.LookupFirst | backend/scripts/fetch_power_data.py:101-104 | `.get(key)` returns the value of the first entry with that key |
| FetchScripts.LookupStored | backend/scripts/fetch_power_data.py:101-104 | with distinct keys, as in a decoded JSON object, `.get(key)` returns the value stored under that key |
| FetchScripts.PowerRecordFor | backend/scripts/fetch_power_data.py:93-110 | a row is kept iff the date parses and all four values are present and not -999; it carries the location and source "POWER" |
| FetchScripts.PowerRecordsFromParameters | backend/scripts/fetch_power_data.py:82-112 | an empty answer gives no rows; otherwise one kept row per T2M date, in key order |
| FetchScripts.PowerRecordsFromT2M | backend/scripts/fetch_power_data.py:87-112 | every row comes from a T2M date and holds no missing marker |
| FetchScripts.FormattedIsConverted | backend/scripts/fetch_power_data.py:93-94 | strptime/strftime of a YYYYMMDD date is the dash-adding conversion of `utils.py` |
| FetchScripts.ImergRecordFor | backend/scripts/fetch_imerg_data.py:80-99 | comments and blank lines give no row; a row needs two tokens, the second a number; it carries the location and product |
| FetchScripts.ImergRecordOrigin | backend/scripts/fetch_imerg_data.py:79-99 | every row comes from a data line starting with its date |
| FetchScripts.Lines | backend/scripts/fetch_imerg_data.py:76-76 | the stripped text splits into at least one line, none containing a newline |
| FetchScripts.ImergRecordsFromText | backend/scripts/fetch_imerg_data.py:76-99 | the parsing loop gives the rows of the kept lines, in line order |
| ModisIntegration.DataLinks | backend/scripts/integrate_all_datasets.py:84-84 | the data links are found unless a data link lacks an href (the KeyError); there are at most as many as links |
| ModisIntegration.DataLinksAppend | backend/scripts/integrate_all_datasets.py:84-84 | the data links of two link lists, concatenated, are those of each, in order |
| ModisIntegration.ParseGranuleMetadata | backend/scripts/integrate_all_datasets.py:77-93 | the metadata holds the first box (if any) and the data links, and fails exactly when the links do |
| ModisIntegration.GranuleDate | backend/scripts/integrate_all_datasets.py:105-109 | a date is produced iff the text before 'T' is a valid date, and it is that text |
| ModisIntegration.ParseBox | backend/scripts/integrate_all_datasets.py:111-118 | a box exists exactly when the text holds four numbers, read as south, west, north, east |
| ModisIntegration.Hits | backend/scripts/integrate_all_datasets.py:120-128 | a detection is listed iff some location lies inside the box (edges included) |
| ModisIntegration.CollectHits | backend/scripts/integrate_all_datasets.py:120-128 | the location loop computes those detections, in location order |
| ModisIntegration.Dedupe | backend/scripts/integrate_all_datasets.py:133-133 | deduplication keeps every detection and repeats none |
| ModisIntegration.DetectFloodsFromModis | backend/scripts/integrate_all_datasets.py:96-138 | the result fails iff some granule's metadata fails; otherwise it is the deduplicated detections |
| ModisIntegration.GranuleHitsIff | backend/scripts/integrate_all_datasets.py:105-128 | a granule's rows are exactly the locations it flags on its date |
| ModisIntegration.DetectedIff | backend/scripts/integrate_all_datasets.py:96-138 | a detection is in the table iff some granule flags it |
| ModisIntegration.EnhancedHeuristic | backend/scripts/integrate_all_datasets.py:192-213 | flood iff one of the heuristic rules fires; each source name holds iff its rule fires and no earlier rule does; otherwise (0, "no_flood") |
| ModisIntegration.HeuristicFirstRuleWins | backend/scripts/integrate_all_datasets.py:192-213 | a row meeting several rules carries the earliest rule's source, on both the IMERG and the POWER-only branch |
| ModisIntegration.ModisSet | backend/scripts/integrate_all_datasets.py:227-227 | the set holds exactly the detections of the table |
| ModisIntegration.CheckFlood | backend/scripts/integrate_all_datasets.py:229-243 | a detected (date, location) is a MODIS flood; otherwise the IMERG fallback rules decide |
| ModisIntegration.LabelRows | backend/scripts/integrate_all_datasets.py:188-247 | one label per row: heuristic labels without detections, `check_flood` labels with them |
| ModisIntegration.CountsOfCheckFloodLabels | backend/scripts/integrate_all_datasets.py:249-250 | floods minus MODIS labels equals the number of IMERG-heuristic labels |
| ModisIntegration.HeuristicCount | backend/scripts/integrate_all_datasets.py:249-250 | the printed heuristic count is the number of rows the IMERG heuristic labelled |
| FloodLabels.SortRows | backend/enhance_flood_labels.py:66-66 | the sorted frame is ordered by (location, date), a permutation of the input, with each location's rows adjacent |
| FloodLabels.Antecedent | backend/enhance_flood_labels.py:15-26 | a location's first row has its own precipitation as every antecedent sum |
| FloodLabels.AntecedentWithinLocation | backend/enhance_flood_labels.py:15-26 | the antecedent sum is the sum over the trailing rows of that location only |
| FloodLabels.Mean30 | backend/enhance_flood_labels.py:29-42 | the 30-row mean exists iff the location has at least 15 rows so far, and is then the mean of the location's last (up to) 30 values |
| FloodLabels.NoIntensityEarly | backend/enhance_flood_labels.py:29-42 | rows among the first 14 of a location never meet the intensity criterion |
| FloodLabels.NoImergColumnNoCriterion7 | backend/enhance_flood_labels.py:108-112 | without the `imerg_available` column, criterion 7 never holds |
| FloodLabels.ReasonPriority | backend/enhance_flood_labels.py:69-150 | the final reason is MODIS iff detected; otherwise high, then medium-high, then medium, by the tier masks |
| FloodLabels.FloodFlagMatchesReason | backend/enhance_flood_labels.py:69-71 | the flag is 1 exactly for reasons other than no_flood, and flood confidences lie in [0.65, 0.95] |
| FloodLabels.TierLabel | backend/enhance_flood_labels.py:128-143 | every tier assignment marks a flood |
| FloodLabels.ApplyTier | backend/enhance_flood_labels.py:128-143 | one masked assignment over the array moves every row to the label after that pass |
| FloodLabels.ApplyModisOverride | backend/enhance_flood_labels.py:146-150 | the MODIS assignment gives every row its final label |
| FloodLabels.ApplyLabelPasses | backend/enhance_flood_labels.py:69-150 | after initialisation and the masked passes, each row holds the label of its final reason |
| FloodLabels.LabelTable | backend/enhance_flood_labels.py:45-181 | one labelled row per input row, row i being sorted row i with its final label |
| FloodLabels.IdentifyFloodEvents | backend/enhance_flood_labels.py:45-181 | the labeller returns exactly the specification table |
| FloodLabels.SameRowsSorted | backend/enhance_flood_labels.py:66-66 | the output holds the input rows, sorted by (location, date) |
| FloodLabels.LabelsConsistent | backend/enhance_flood_labels.py:69-150 | every output label is one of the five, with its flag and confidence |
| FloodLabels.ModisOverrides | backend/enhance_flood_labels.py:146-150 | a row whose label_source mentions MODIS ends as a MODIS flood with confidence 0.90, whatever else it matched |
| FloodLabels.ThreeDayAtMostSevenDay | backend/enhance_flood_labels.py:15-26 | with non-negative rain, the 3-day antecedent sum never exceeds the 7-day sum |
| FloodLabels.EnhanceExisting | backend/enhance_flood_labels.py:216-216 | the relabelled table keeps its rows and gains a label_source column |
| FloodLabels.ModisNameOnly | backend/enhance_flood_labels.py:216-216 | only the modis_satellite reason name contains "modis" |
| FloodLabels.RelabelKeepsModis | backend/enhance_flood_labels.py:146-150 | on a second run, a row counts as MODIS-detected iff its first-run reason was MODIS |
| Features.SortObservations | backend/ml/feature_engineering.py:18-20 | the copy sorted by (location, date) is ordered, a permutation, with each location's rows adjacent |
| Features.CreateFeatures | backend/ml/feature_engineering.py:18-73 | one engineered row per observation, row i computed from the sorted frame |
| Features.SameObservationsSorted | backend/ml/feature_engineering.py:18-20 | the output carries exactly the input observations, in sorted order |
| Features.RollingMax | backend/ml/feature_engineering.py:29-31 | the rolling maximum is one of the location's last k values and bounds all of them (so it is at least the row's own value) |
| Features.MaxAtLeastDay | backend/ml/feature_engineering.py:29-31 | the 7-day maximum is at least the day's precipitation |
| Features.ThreeDayAtMostSevenDay | backend/ml/feature_engineering.py:26-34 | with non-negative rain, the 3-row sum never exceeds the 7-row sum |
| Features.FirstRowOfLocation | backend/ml/feature_engineering.py:26-48 | a location's first row has its own value in every window and nulls in the lag and diff columns |
| Features.RunCumsumIsRainyRun | backend/ml/feature_engineering.py:40-43 | for a 0/1 column, the pandas run-cumsum idiom is the length of the rainy run ending at the row |
| Features.RainyRunContinues | backend/ml/feature_engineering.py:40-43 | on a rainy row after a row of the same location, the count is one more than before; on a dry row it is 0 |
| Features.RainyRunStarts | backend/ml/feature_engineering.py:40-43 | on a location's first row, the count is that day's flag |
| Features.ConsecutiveRainyDaysStep | backend/ml/feature_engineering.py:40-43 | the count restarts at each location and grows by one per rainy day |
| Features.RateOfChangeInFrame | backend/ml/feature_engineering.py:46-48 | the difference is with the previous row of the same location, null on its first row |
| Features.DayOfYear | backend/ml/feature_engineering.py:62-62 | day of year is between 1 and 365/366, and 31 December is the last day |
| Features.IsWetSeason | backend/ml/feature_engineering.py:65-65 | the flag is 1 exactly for June to October |
| Features.RowFlags | backend/ml/feature_engineering.py:40-65 | the high-humidity flag is 1 iff humidity > 80, the wet-season flag iff the month is June to October, the rainy flag iff precipitation > 5 |
| Features.LagColumnNamesDistinct | backend/ml/feature_engineering.py:71-73 | the six lag column names are pairwise different |
| Features.AddLagColumns | backend/ml/feature_engineering.py:71-73 | the lag loop adds exactly the six columns, each the within-location shift |
| Features.LagInFrame | backend/ml/feature_engineering.py:71-73 | in a grouped frame, a lag is the row n above, or null when that row belongs to another location |
| Features.LagsWithinLocation | backend/ml/feature_engineering.py:46-73 | the precipitation lags and the difference read the rows directly above, and are null where that row belongs to another location |
| Features.FeatureColumns | backend/ml/feature_engineering.py:78-111 | there are 21 model inputs |
| Features.FeatureColumnsSelection | backend/ml/feature_engineering.py:78-111 | lag1 columns and precipitation_lag3 are model inputs; the other lag3 columns and is_rainy_day are not |
| Features.PredictionFeatures | backend/ml/feature_engineering.py:114-152 | a vector exists iff the sequences are non-empty and of equal length, and it has 21 cells |
| Features.PredictionRowsSorted | backend/ml/feature_engineering.py:114-152 | with dates oldest first, the built frame is already sorted |
| Features.PredictionIsLastRow | backend/ml/feature_engineering.py:152-152 | the prediction vector is that of the last row of the built frame |
| Features.PredictionUsesLastDay | backend/ml/feature_engineering.py:114-152 | the prediction row holds the last day's values, the 7-day sum of the last seven days and the previous day as lag 1 |
| Training.DropIncomplete | backend/ml/train_model.py:48-49 | exactly the complete rows are kept |
| Training.DropIncompleteAppend | backend/ml/train_model.py:48-49 | dropping nulls from a concatenation drops them from each part, in order; with the next row this fixes the table, repeats and order included |
| Training.DropIncompleteSingle | backend/ml/train_model.py:48-49 | one row is kept exactly when it is complete |
| Training.DropIncompleteSnoc | backend/ml/train_model.py:48-49 | appending a row appends it to the clean rows exactly when it is complete |
| Training.DropIncompleteIdempotent | backend/ml/train_model.py:48-49 | dropping nulls twice drops nothing more |
| Training.CompleteRowsKept | backend/ml/train_model.py:48-49 | a table without nulls is unchanged |
| Training.Labels | backend/ml/train_model.py:55-55 | the label vector is the flood_occurred column |
| Training.ClassCounts | backend/ml/train_model.py:58-63 | for 0/1 labels, the sum counts the positives and the rest counts the negatives |
| Training.Balance | backend/ml/train_model.py:58-63 | the class counts add up to the size, and the warning flag is set iff there are fewer than 10 positives |
| Training.ScalePosWeight | backend/ml/train_model.py:75-79 | the weight times the positives equals the negatives, and it is 1 without positives |
| Training.WeightBalancesClasses | backend/ml/train_model.py:75-79 | weighted, the positive class weighs as much as the negative class |
| Training.FeatureKeyInjective | backend/ml/train_model.py:129-133 | distinct columns read distinct booster keys |
| Training.ImportanceOf | backend/ml/train_model.py:129-133 | a column's importance is its key's gain, or 0 when the key is absent |
| Training.ImportanceValues | backend/ml/train_model.py:129-133 | the loop gives one importance per column, column i reading key f{i} |
| Training.ImportanceTable | backend/ml/train_model.py:135-138 | the table is sorted by descending importance and is a permutation of the (column, importance) pairs |
| Training.ImportanceTableCoversColumns | backend/ml/train_model.py:135-138 | every feature column appears with its own importance |
| Training.Matches | backend/ml/train_model.py:160-160 | matches reach the total iff every prediction is right |
| Training.TestAccuracy | backend/ml/train_model.py:160-160 | the accuracy is defined iff the test set is non-empty, lies in [0, 1], and is 1 iff every prediction is right |
| Training.Parent | backend/ml/train_model.py:177-177 | the parent part ends in '/' or is empty, and followed by the name gives the path back |
| Training.Stem | backend/ml/train_model.py:177-177 | stem followed by suffix gives the name back |
| Training.WithSuffix | backend/ml/train_model.py:177-177 | the result exists iff the path has a name; the path is parent + stem + old suffix, and the result is parent + stem + new suffix |
| Training.MetadataPathIdempotent | backend/ml/train_model.py:177-177 | deriving the metadata path twice is deriving it once |
| Training.JsonPathFixed | backend/ml/train_model.py:177-177 | a path already ending in stem + ".json" is unchanged |
| Training.NameAfterParent | backend/ml/train_model.py:177-177 | a '/'-free name after a parent part is the final component |
| Training.JsonSuffix | backend/ml/train_model.py:177-177 | a non-empty stem + ".json" has suffix ".json" and gives the stem back |
| GeoUtils.ValidCoordinatesBounds | frontend/src/utils/geoUtils.js:57-66 | valid iff both are numbers with latitude in [-90, 90] and longitude in [-180, 180], bounds included |
| GeoUtils.CreateBoundingBox | frontend/src/utils/geoUtils.js:75-86 | the box stays on the globe, and each edge is the unclamped extent unless that passes the pole or antimeridian |
| GeoUtils.PointInOwnBox | frontend/src/utils/geoUtils.js:57-86 | a valid point lies inside its own box for any non-negative radius and longitude extent |
| GeoUtils.DefaultRadiusExtent | frontend/src/utils/geoUtils.js:75-86 | with the default 50 km radius, a box away from the poles spans 100 km of latitude |
| GeoUtils.ClampOnlyAtTheEdges | frontend/src/utils/geoUtils.js:75-86 | the clamped and unclamped boxes agree iff the unclamped one stays on the globe |
| GeoUtils.GetBboxCenter | frontend/src/utils/geoUtils.js:93-98 | the centre is equidistant from opposite edges |
| GeoUtils.CenterInside | frontend/src/utils/geoUtils.js:93-114 | the centre of a well-formed box lies inside it |
| GeoUtils.EdgesInside | frontend/src/utils/geoUtils.js:107-114 | points on the edges are inside: containment is inclusive |
| GeoUtils.LatHemisphere | frontend/src/utils/geoUtils.js:46-46 | N iff lat >= 0, S iff lat < 0 |
| GeoUtils.LonHemisphere | frontend/src/utils/geoUtils.js:47-47 | E iff lon >= 0, W iff lon < 0 |
| GeoUtils.Part | frontend/src/utils/geoUtils.js:48-48 | each coordinate ends with the degree sign and its letter |
| GeoUtils.FormatMirrorsLatitude | frontend/src/utils/geoUtils.js:45-49 | mirroring across the equator changes only N into S |
| GeoUtils.CreateImergBoundingBox | frontend/src/services/imergAPI.js:42-53 | the box extends radius/111 degrees of latitude and lonDelta of longitude either side |
| GeoUtils.ImergBoxCentred | frontend/src/services/imergAPI.js:42-53 | the centre of that box is the point |
| GeoUtils.ImergBoxUnclamped | frontend/src/services/imergAPI.js:42-53 | near a pole, that box passes latitude 90: it is not clamped |
| FloodMap.GetRiskLevel | frontend/src/components/Map/FloodMap.jsx:27-32 | Critical iff score >= 75, High iff 50 <= score < 75, Medium iff 25 <= score < 50, Low iff score < 25 |
| FloodMap.RiskLevelMonotone | frontend/src/components/Map/FloodMap.jsx:27-32 | a higher score never gives a lower level |
| FloodMap.GetRiskColor | frontend/src/components/Map/FloodMap.jsx:35-43 | each level has its colour, and grey exactly for anything else |
| FloodMap.ColorsDistinguishLevels | frontend/src/components/Map/FloodMap.jsx:27-43 | every score gets a non-grey colour, and two scores share a colour iff they share a level |
| FloodMap.BasePoint | frontend/src/components/Map/FloodMap.jsx:282-293 | the selected location wins, then the clicked point, then the store location when both coordinates are truthy |
| FloodMap.ZeroCoordinateFalls | frontend/src/components/Map/FloodMap.jsx:288-293 | a store location with latitude 0 or longitude 0 is never used |
| FloodRiskApi.GetRiskColor | frontend/src/services/floodRiskAPI.js:36-44 | each upper-case level maps to its text class, and anything else to text-gray-500 |
| FloodRiskApi.GetRiskBgColor | frontend/src/services/floodRiskAPI.js:51-59 | each upper-case level maps to its background class, and anything else to bg-gray-500 |
| FloodRiskApi.ClassesAgree | frontend/src/services/floodRiskAPI.js:36-59 | for every input the text and background classes name the same shade |
| FloodRiskApi.CaseSensitive | frontend/src/services/floodRiskAPI.js:36-44 | the map's capitalised "Low" is not a key, so it gets grey |
| PowerApi.FormatDateForPower | frontend/src/services/powerAPI.js:44-46 | every dash is removed, and every other character is kept |
| PowerApi.FormatDateForPowerMatchesBackend | frontend/src/services/powerAPI.js:44-46 | it equals the backend's YYYYMMDD conversion and is idempotent |
| PowerApi.FormatDateForPowerConcat | frontend/src/services/powerAPI.js:44-46 | removal works piece by piece, so the other characters keep their order |
| PowerApi.ParsePowerParameterPairs | frontend/src/services/powerAPI.js:53-58 | one pair per property: the result is a permutation of the object's entries |
| PowerApi.ParsePowerParameterOrder | frontend/src/services/powerAPI.js:53-58 | array-index keys come first in ascending numeric order, then the other keys in insertion order |
| PowerApi.AllIndexKeysAscend | frontend/src/services/powerAPI.js:53-58 | with YYYYMMDD keys, the pairs come out in ascending date order |
| PowerApi.NoIndexKeysKeepOrder | frontend/src/services/powerAPI.js:53-58 | without index-like keys, the pairs keep insertion order |
| UiStore.NewNotification | frontend/src/stores/uiStore.js:32-45 | the caller's fields win; the defaults are id = now, type "info", duration 5000 |
| UiStore.AutoRemoval | frontend/src/stores/uiStore.js:33-53 | no timer iff the caller's duration is exactly 0; otherwise the timer removes the local id `now`, after the stored duration |
| UiStore.TimerRemovesOwnNotification | frontend/src/stores/uiStore.js:33-53 | without a caller id, the timer removes the notification it was scheduled for |
| UiStore.TimerMissesCallerId | frontend/src/stores/uiStore.js:33-53 | with a caller id other than the timestamp, the timer leaves the notification in the list |
| UiStore.WithoutId | frontend/src/stores/uiStore.js:56-60 | no kept entry has the removed id |
| UiStore.WithoutIdMembers | frontend/src/stores/uiStore.js:56-60 | exactly the entries with another id are kept |
| UiStore.WithoutIdKeepsOrder | frontend/src/stores/uiStore.js:56-60 | filtering distributes over concatenation, so order is kept |
| UiStore.WithoutIdIdempotent | frontend/src/stores/uiStore.js:56-60 | removing an id twice is removing it once |
| UiStore.NextTheme | frontend/src/stores/uiStore.js:72-78 | light becomes dark; anything else becomes light |
| UiStore.ThemeToggleTwice | frontend/src/stores/uiStore.js:72-78 | two toggles restore light or dark; any other theme ends at dark |
| UiStore.Store.constructor | frontend/src/stores/uiStore.js:7-13 | sidebar open, modal closed and empty, no notifications, light theme |
| UiStore.Store.ToggleSidebar | frontend/src/stores/uiStore.js:16-18 | flips the sidebar and nothing else |
| UiStore.Store.SetSidebarOpen | frontend/src/stores/uiStore.js:20-22 | sets the sidebar and nothing else |
| UiStore.Store.OpenModal | frontend/src/stores/uiStore.js:24-26 | opens the modal with its content; nothing else changes |
| UiStore.Store.CloseModal | frontend/src/stores/uiStore.js:28-30 | closes and empties the modal; nothing else changes |
| UiStore.Store.AddNotification | frontend/src/stores/uiStore.js:32-45 | appends exactly the new notification; nothing else changes |
| UiStore.Store.RemoveNotification | frontend/src/stores/uiStore.js:56-60 | the list becomes the filtered list; nothing else changes |
| UiStore.Store.ClearNotifications | frontend/src/stores/uiStore.js:62-64 | empties the list; nothing else changes |
| UiStore.Store.SetTheme | frontend/src/stores/uiStore.js:66-70 | sets the theme; nothing else changes |
| UiStore.Store.ToggleTheme | frontend/src/stores/uiStore.js:72-78 | the theme becomes the next theme; nothing else changes |
| UiStore.ToggleSidebarTwice | frontend/src/stores/uiStore.js:16-18 | two toggles restore the sidebar |
| UiStore.AddThenRemove | frontend/src/stores/uiStore.js:32-60 | adding a notification with a fresh id and removing that id leaves the list as it was |
| MapStore.EnvOr | frontend/src/stores/mapStore.js:9-12 | a missing, unparsable or zero environment value gives the fallback |
| MapStore.EnvZoomOr | frontend/src/stores/mapStore.js:13-13 | a missing or zero zoom gives 10 |
| MapStore.Toggled | frontend/src/stores/mapStore.js:31-38 | only the named layer flips; an unknown layer becomes true; the others are unchanged |
| MapStore.ToggledTwice | frontend/src/stores/mapStore.js:31-38 | toggling a known layer twice restores the switches |
| MapStore.Store.constructor | frontend/src/stores/mapStore.js:7-20 | the configured centre and zoom, all layers on, no selection, no markers |
| MapStore.Store.SetCenter | frontend/src/stores/mapStore.js:23-25 | sets the centre; nothing else changes |
| MapStore.Store.SetZoom | frontend/src/stores/mapStore.js:27-29 | sets the zoom; nothing else changes |
| MapStore.Store.ToggleLayer | frontend/src/stores/mapStore.js:31-38 | the layers become the toggled layers; nothing else changes |
| MapStore.Store.SetSelectedLocation | frontend/src/stores/mapStore.js:40-42 | sets the selection; nothing else changes |
| MapStore.Store.SetRiskMarkers | frontend/src/stores/mapStore.js:44-46 | sets the markers; nothing else changes |
| MapStore.Store.ClearRiskMarkers | frontend/src/stores/mapStore.js:48-50 | empties the markers; nothing else changes |
| MapStore.Store.Reset | frontend/src/stores/mapStore.js:52-67 | back to the initial state for the same configuration |
| FloodStore.ErrorMessage | frontend/src/stores/floodStore.js:50-55 | the server's non-empty detail, else the fixed failure message; never empty |
| FloodStore.Store.constructor | frontend/src/stores/floodStore.js:8-20 | no data, not loading, no error, the configured location, no dates |
| FloodStore.Store.SetLocation | frontend/src/stores/floodStore.js:23-25 | sets the location; nothing else changes |
| FloodStore.Store.SetDateRange | frontend/src/stores/floodStore.js:27-29 | sets the date range; nothing else changes |
| FloodStore.Store.BeginFetch | frontend/src/stores/floodStore.js:31-47 | a request is made iff both dates are truthy; otherwise only the error is set; with a request, loading starts and the error clears |
| FloodStore.Store.FinishFetch | frontend/src/stores/floodStore.js:49-55 | success stores the data, failure the error message; loading ends either way |
| FloodStore.Store.FetchFloodRisk | frontend/src/stores/floodStore.js:31-56 | the whole action: guard, request, then data or error, ending not loading |
| FloodStore.Store.ClearFloodData | frontend/src/stores/floodStore.js:58-60 | clears data and error; nothing else changes |
| FloodStore.Store.Reset | frontend/src/stores/floodStore.js:62-76 | back to the initial state for the same configuration |

## Left out

- HTTP, file and dataset I/O are not modelled. This covers the calls to CMR, POWER, GES DISC and Earthdata, `xarray`, CSV and JSON files, and model files. Their answers are inputs: `Feed`, `PowerPayload`, the IMERG response text and the `Outcome` of a frontend request.
- Floating point is modelled as exact `real` arithmetic. Number formatting (`:.1f`, `toFixed`, f-string rendering) is a `render`/`fixed` function parameter, or is left out of the factor messages. NaN is modelled only as an absent value.
- RiskScorer.BuildAssessment: the climate summary's `round(x, 2)` (backend/app/routes/flood_risk.py:153-156) is not modelled; its four values are exact. The same holds for RiskScorer.Assessment, RiskScorer.AssessFloodRisk and RiskScorer.AssessFloodRiskStrict.
- Python `float()` and `strptime` are modelled only for plain decimals and zero-padded dates. Their other accepted spellings (exponents, "inf", whitespace inside fields) are left out.
- GeoUtils.CreateBoundingBox: the longitude half-extent `radius / (111 cos lat)` is the input `lonDelta`, because the model has no cosine. The same holds for GeoUtils.CreateImergBoundingBox.
- UiStore.Store.AddNotification: `Date.now()` is the `now` argument, and the method does not schedule the timer. `AutoRemoval` states which timer the source schedules: none when the caller's duration is exactly 0, otherwise one after `duration || 5000` ms that filters out the local id `now`, not the notification's id. Firing it is `RemoveNotification(now)`, so a notification with a caller-supplied id is never auto-removed.
- UiStore.Store.SetTheme and UiStore.Store.ToggleTheme do not model the `localStorage` write.
- FloodRiskApi.GetRiskColor and FloodRiskApi.GetRiskBgColor do not model level strings that name inherited JavaScript object properties (such as "toString"). Those give a non-string in the source and grey here.
- The random parts of training are not modelled: the XGBoost fit, `train_test_split`, predicted probabilities, ROC-AUC and the classification report. The booster's gain map is an input to `ImportanceValues`. The model covers only the deterministic bookkeeping around it.
- Training.ImportanceTable: the order among equal importances is not pinned to pandas' sort. Only the descending order and the permutation are stated.
- Features.PredictionFeatures: the default dates (today going backwards) are not modelled, because they depend on the clock. The dates are an input.
- The random marker generation of FloodMap.jsx (`generateNearbyLocations`) and all rendering are not modelled. Only the choice of the base point is.
- FloodLabels.IdentifyFloodEvents does not model one side effect. `calculate_antecedent_precipitation` and `calculate_precipitation_intensity` also add their columns to the caller's frame (backend/enhance_flood_labels.py:61-63). The model returns only the labelled table.
- Console output and `print` progress messages are not modelled.
- ImergRoute.PlanImergDownload: JSON nulls in a link's `rel`/`type` are modelled like absent fields. The download and the dataset summary after it are I/O.
- RiskScorer.BuildAssessment: the factor messages carry their number as a value, not as formatted text.
- Training.WithSuffix: `PurePath` normalisation is not modelled. A trailing '/', a doubled '//' and './' components are kept as text, so "models/m.pkl/" has an empty name here (None) where Python strips the slash and succeeds.
- Text.IsSpace: only ASCII whitespace separates fields. Python's `str.split()` also splits on \x1c-\x1f, \x85, \xa0 and the other Unicode spaces.
- MapStore.Toggled: keys that name inherited JavaScript object properties (such as "toString") are not modelled; the source reads those as truthy before the first toggle.
- PowerApi: a POWER parameter map is a sequence of pairs, so a repeated key is possible here; a decoded JSON object keeps only the last value for it. The same holds for FetchScripts.Lookup, which takes the first entry; FetchScripts.LookupStored states the value for distinct keys.
- UiStore.NewNotification: a field passed explicitly as `undefined` is modelled like an absent field, while the source's spread would overwrite the default with `undefined`.
