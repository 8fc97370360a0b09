/**
 * The feature builder of backend/ml/feature_engineering.py.
 *
 * `create_features` sorts a copy of the observations by (location, date) and adds,
 * within each location, rolling windows over a row count (`min_periods=1`), a
 * count of consecutive rainy days, a first difference and lags of 1 and 3 rows,
 * plus per-row flags, calendar fields and an interaction term.
 */
module Features {
  import opened Wrappers
  import Text
  import Sorting
  import Series

  /** One daily observation; `date` is the parsed `pd.to_datetime` value. */
  datatype Observation = Observation(
    date: Text.Date,
    location: string,
    precipitation: real,
    temperature: real,
    humidity: real,
    windSpeed: real)

  function Location(o: Observation): string { o.location }
  function Precipitation(o: Observation): real { o.precipitation }
  function Temperature(o: Observation): real { o.temperature }
  function Humidity(o: Observation): real { o.humidity }

  /** `is_rainy_day`: more than 5 mm. */
  function RainyFlag(o: Observation): int { if o.precipitation > 5.0 then 1 else 0 }

  /** `sort_values(['location', 'date'])` on parsed dates. */
  predicate ObservationLe(a: Observation, b: Observation)
  {
    Text.StrLt(a.location, b.location) || (a.location == b.location && Text.DateLe(a.date, b.date))
  }

  lemma ObservationLeTotal()
    ensures Sorting.Total(ObservationLe)
  {
    forall a: Observation, b: Observation
      ensures ObservationLe(a, b) || ObservationLe(b, a)
    {
      Text.StrLtTotal(a.location, b.location);
    }
  }

  function SortObservations(rows: seq<Observation>): (s: seq<Observation>)
    ensures Sorting.SortedBy(s, ObservationLe)
    ensures multiset(s) == multiset(rows) && |s| == |rows|
    ensures Series.Grouped(Series.Column(s, Location))
  {
    ObservationLeTotal();
    var s := Sorting.SortBy(rows, ObservationLe);
    assert forall a, b :: ObservationLe(a, b) ==> Text.StrLe(Location(a), Location(b));
    Series.SortedKeysGrouped(s, ObservationLe, Location);
    s
  }

  // ---------------------------------------------------------------------------
  // Per-location windows
  // ---------------------------------------------------------------------------

  /** The column `col` of row `i`'s location, up to and including row `i`. */
  function ColumnHistory(s: seq<Observation>, col: Observation -> real, i: nat): (h: seq<real>)
    requires i < |s|
    ensures h != [] && h[|h| - 1] == col(s[i])
  {
    Series.History(Series.Column(s, Location), Series.Column(s, col), i)
  }

  /** `rolling(k, min_periods=1).sum()` within the location. */
  function RollingSum(s: seq<Observation>, col: Observation -> real, i: nat, k: nat): real
    requires i < |s| && k >= 1
  {
    Series.Sum(Series.Trailing(ColumnHistory(s, col, i), k))
  }

  /** `rolling(k, min_periods=1).max()` within the location; never below the row's own value. */
  function RollingMax(s: seq<Observation>, col: Observation -> real, i: nat, k: nat): (m: real)
    requires i < |s| && k >= 1
    ensures m >= col(s[i])
    ensures var w := Series.Trailing(ColumnHistory(s, col, i), k);
      m in w && forall x :: x in w ==> x <= m
  {
    var w := Series.Trailing(ColumnHistory(s, col, i), k);
    assert w[|w| - 1] == col(s[i]);
    Series.Max(w)
  }

  /** `rolling(k, min_periods=1).mean()` within the location. */
  function RollingMean(s: seq<Observation>, col: Observation -> real, i: nat, k: nat): real
    requires i < |s| && k >= 1
  {
    Series.Mean(Series.Trailing(ColumnHistory(s, col, i), k))
  }

  // ---------------------------------------------------------------------------
  // Consecutive rainy days: the `groupby((x != x.shift()).cumsum()).cumsum()` idiom
  // ---------------------------------------------------------------------------

  /** `(x != x.shift()).cumsum()`: the run number of position `j` (the first row starts run 1). */
  function RunId(x: seq<int>, j: nat): (id: nat)
    requires j < |x|
    ensures id >= 1
  {
    (if j == 0 || x[j] != x[j - 1] then 1 else 0) + (if j == 0 then 0 else RunId(x, j - 1))
  }

  /** The sum of the `x[k]`, `k <= j`, that lie in run `id`. */
  function SumInRun(x: seq<int>, j: nat, id: nat): int
    requires j < |x|
  {
    (if RunId(x, j) == id then x[j] else 0) + (if j == 0 then 0 else SumInRun(x, j - 1, id))
  }

  /** The per-run cumulative sum at `j`, as the pandas idiom computes it. */
  function RunCumsum(x: seq<int>, j: nat): int
    requires j < |x|
  {
    SumInRun(x, j, RunId(x, j))
  }

  /** The intended meaning: the number of rainy days in a row ending at `j`, 0 on a dry day. */
  function RainyRun(x: seq<int>, j: nat): nat
    requires j < |x|
  {
    if x[j] == 0 then 0
    else if j == 0 || x[j - 1] == 0 then 1
    else RainyRun(x, j - 1) + 1
  }

  lemma {:induction false} SumInLaterRun(x: seq<int>, j: nat, id: nat)
    requires j < |x| && id > RunId(x, j)
    ensures SumInRun(x, j, id) == 0
  {
    if j > 0 {
      SumInLaterRun(x, j - 1, id);
    }
  }

  /** For a 0/1 column the pandas idiom computes exactly the rainy-run length. */
  lemma {:induction false} RunCumsumIsRainyRun(x: seq<int>, j: nat)
    requires j < |x|
    requires forall k :: 0 <= k < |x| ==> x[k] == 0 || x[k] == 1
    ensures RunCumsum(x, j) == RainyRun(x, j)
  {
    if j > 0 {
      RunCumsumIsRainyRun(x, j - 1);
      if x[j] != x[j - 1] {
        SumInLaterRun(x, j - 1, RunId(x, j));
      }
    }
  }

  /** `RainyRun` only looks at the positions up to `j`. */
  lemma {:induction false} RainyRunPrefix(x: seq<int>, y: seq<int>, j: nat)
    requires j < |x| && j < |y| && x[..j + 1] == y[..j + 1]
    ensures RainyRun(x, j) == RainyRun(y, j)
  {
    assert x[j] == x[..j + 1][j] && y[j] == y[..j + 1][j];
    if j > 0 {
      assert x[j - 1] == x[..j + 1][j - 1] && y[j - 1] == y[..j + 1][j - 1];
      assert x[..j] == x[..j + 1][..j] && y[..j] == y[..j + 1][..j];
      RainyRunPrefix(x, y, j - 1);
    }
  }

  function RainyHistory(s: seq<Observation>, i: nat): (h: seq<int>)
    requires i < |s|
    ensures h != [] && h[|h| - 1] == RainyFlag(s[i])
    ensures forall k :: 0 <= k < |h| ==> h[k] == 0 || h[k] == 1
  {
    var h := Series.History(Series.Column(s, Location), Series.Column(s, RainyFlag), i);
    assert forall k :: 0 <= k < |h| ==> h[k] in Series.Column(s, RainyFlag);
    h
  }

  /** `consecutive_rainy_days` at row `i`. */
  function ConsecutiveRainyDays(s: seq<Observation>, i: nat): int
    requires i < |s|
  {
    var h := RainyHistory(s, i);
    RunCumsum(h, |h| - 1)
  }

  // ---------------------------------------------------------------------------
  // Calendar fields
  // ---------------------------------------------------------------------------

  /** Days in the months before `m` of year `y`. */
  function DaysBeforeMonth(y: int, m: int): int
  {
    var common := [0, 31, 59, 90, 120, 151, 181, 212, 243, 273, 304, 334];
    if m < 1 || m > 12 then 0
    else common[m - 1] + (if m > 2 && Text.IsLeapYear(y) then 1 else 0)
  }

  /** `dt.dayofyear`: 1 on 1 January, 365 or 366 on 31 December. */
  function DayOfYear(d: Text.Date): (n: int)
    ensures Text.ValidDate(d) ==> 1 <= n <= (if Text.IsLeapYear(d.year) then 366 else 365)
    ensures Text.ValidDate(d) && d.month == 12 && d.day == 31 ==> n == (if Text.IsLeapYear(d.year) then 366 else 365)
  {
    DaysBeforeMonth(d.year, d.month) + d.day
  }

  /** `month.isin([6, 7, 8, 9, 10])`: the Philippine wet season. */
  function IsWetSeason(month: int): (flag: int)
    ensures flag == 1 <==> month in {6, 7, 8, 9, 10}
    ensures flag == 0 || flag == 1
  {
    if 6 <= month <= 10 then 1 else 0
  }

  // ---------------------------------------------------------------------------
  // The engineered frame
  // ---------------------------------------------------------------------------

  /** A row of `create_features`' output; `None` is a null (NaN) cell. */
  datatype FeatureRow = FeatureRow(
    obs: Observation,
    precip7DaySum: real,
    precip7DayMax: real,
    precip3DaySum: real,
    precip14DayAvg: real,
    isRainyDay: int,
    consecutiveRainyDays: int,
    precipRateOfChange: Option<real>,
    temp7DayAvg: real,
    humidity7DayAvg: real,
    highHumidity: int,
    dayOfYear: int,
    month: int,
    isWetSeason: int,
    precipHumidityInteraction: real,
    precipitationLag1: Option<real>,
    precipitationLag3: Option<real>,
    temperatureLag1: Option<real>,
    temperatureLag3: Option<real>,
    humidityLag1: Option<real>,
    humidityLag3: Option<real>)

  /** `groupby('location')[col].shift(n)` at row `i`. */
  function LagOf(s: seq<Observation>, col: Observation -> real, i: nat, n: nat): Option<real>
    requires i < |s|
  {
    Series.Lag(Series.Column(s, Location), Series.Column(s, col), i, n)
  }

  /** `groupby('location')['precipitation'].diff()` at row `i`. */
  function RateOfChange(s: seq<Observation>, i: nat): Option<real>
    requires i < |s|
  {
    match LagOf(s, Precipitation, i, 1)
    case Some(previous) => Some(s[i].precipitation - previous)
    case None => None
  }

  function FeatureRowAt(s: seq<Observation>, i: nat): FeatureRow
    requires i < |s|
  {
    var o := s[i];
    FeatureRow(
      obs := o,
      precip7DaySum := RollingSum(s, Precipitation, i, 7),
      precip7DayMax := RollingMax(s, Precipitation, i, 7),
      precip3DaySum := RollingSum(s, Precipitation, i, 3),
      precip14DayAvg := RollingMean(s, Precipitation, i, 14),
      isRainyDay := RainyFlag(o),
      consecutiveRainyDays := ConsecutiveRainyDays(s, i),
      precipRateOfChange := RateOfChange(s, i),
      temp7DayAvg := RollingMean(s, Temperature, i, 7),
      humidity7DayAvg := RollingMean(s, Humidity, i, 7),
      highHumidity := if o.humidity > 80.0 then 1 else 0,
      dayOfYear := DayOfYear(o.date),
      month := o.date.month,
      isWetSeason := IsWetSeason(o.date.month),
      precipHumidityInteraction := o.precipitation * o.humidity / 100.0,
      precipitationLag1 := LagOf(s, Precipitation, i, 1),
      precipitationLag3 := LagOf(s, Precipitation, i, 3),
      temperatureLag1 := LagOf(s, Temperature, i, 1),
      temperatureLag3 := LagOf(s, Temperature, i, 3),
      humidityLag1 := LagOf(s, Humidity, i, 1),
      humidityLag3 := LagOf(s, Humidity, i, 3))
  }

  /** `create_features`: one engineered row per observation, in (location, date) order. */
  function CreateFeatures(rows: seq<Observation>): (out: seq<FeatureRow>)
    ensures |out| == |rows|
    ensures forall i :: 0 <= i < |out| ==> out[i] == FeatureRowAt(SortObservations(rows), i)
  {
    var s := SortObservations(rows);
    seq(|s|, i requires 0 <= i < |s| => FeatureRowAt(s, i))
  }

  /** The source columns of the lag loop, in loop order. */
  function LagSourceColumns(): seq<string>
  {
    ["precipitation", "temperature", "humidity"]
  }

  function ColumnAccessor(k: nat): Observation -> real
    requires k < 3
  {
    if k == 0 then Precipitation else if k == 1 then Temperature else Humidity
  }

  /** `f'{col}_lag{lag}'` for source column `k` and a lag of 1 or 3. */
  function LagColumnName(k: nat, n: nat): (name: string)
    requires k < 3 && (n == 1 || n == 3)
    ensures |name| == |LagSourceColumns()[k]| + 5
    ensures name[|name| - 1] == if n == 1 then '1' else '3'
  {
    LagSourceColumns()[k] + (if n == 1 then "_lag1" else "_lag3")
  }

  /** The six lag column names are pairwise different. */
  lemma LagColumnNamesDistinct(k1: nat, n1: nat, k2: nat, n2: nat)
    requires k1 < 3 && (n1 == 1 || n1 == 3) && k2 < 3 && (n2 == 1 || n2 == 3)
    ensures LagColumnName(k1, n1) == LagColumnName(k2, n2) <==> k1 == k2 && n1 == n2
  {
    var a, b := LagColumnName(k1, n1), LagColumnName(k2, n2);
    if a == b {
      assert |a| == |b| && a[|a| - 1] == b[|b| - 1];
    }
  }

  function LagColumn(s: seq<Observation>, k: nat, n: nat): (c: seq<Option<real>>)
    requires k < 3
    ensures |c| == |s|
    ensures forall i :: 0 <= i < |s| ==> c[i] == LagOf(s, ColumnAccessor(k), i, n)
  {
    seq(|s|, i requires 0 <= i < |s| => LagOf(s, ColumnAccessor(k), i, n))
  }

  /**
   * The lag loop: for each source column, add `<col>_lag1` and `<col>_lag3`, the
   * column shifted by one and three rows within each location.  Exactly those six
   * columns are added.
   */
  method AddLagColumns(s: seq<Observation>) returns (lags: map<string, seq<Option<real>>>)
    ensures forall k, n :: 0 <= k < 3 && (n == 1 || n == 3) ==>
      LagColumnName(k, n) in lags && lags[LagColumnName(k, n)] == LagColumn(s, k, n)
    ensures forall name :: name in lags ==>
      exists k, n :: 0 <= k < 3 && (n == 1 || n == 3) && name == LagColumnName(k, n)
  {
    lags := map[];
    for k := 0 to 3
      invariant forall j, n :: 0 <= j < k && (n == 1 || n == 3) ==>
        LagColumnName(j, n) in lags && lags[LagColumnName(j, n)] == LagColumn(s, j, n)
      invariant forall name :: name in lags ==>
        exists j, n :: 0 <= j < k && (n == 1 || n == 3) && name == LagColumnName(j, n)
    {
      forall j, n | 0 <= j < k && (n == 1 || n == 3)
        ensures LagColumnName(j, n) != LagColumnName(k, 1) && LagColumnName(j, n) != LagColumnName(k, 3)
      {
        LagColumnNamesDistinct(j, n, k, 1);
        LagColumnNamesDistinct(j, n, k, 3);
      }
      LagColumnNamesDistinct(k, 1, k, 3);
      lags := lags[LagColumnName(k, 1) := LagColumn(s, k, 1)][LagColumnName(k, 3) := LagColumn(s, k, 3)];
    }
  }

  // ---------------------------------------------------------------------------
  // Properties of the engineered rows
  // ---------------------------------------------------------------------------

  /** Row `i` of the output is the engineered row `i` of the sorted frame. */
  lemma OutputRow(rows: seq<Observation>, i: nat)
    requires i < |rows|
    ensures CreateFeatures(rows)[i] == FeatureRowAt(SortObservations(rows), i)
  {
  }

  /** The output keeps every observation (the input frame is copied, not changed) in sorted order. */
  lemma SameObservationsSorted(rows: seq<Observation>)
    ensures var out := CreateFeatures(rows);
      var obs := seq(|out|, i requires 0 <= i < |out| => out[i].obs);
      multiset(obs) == multiset(rows) && Sorting.SortedBy(obs, ObservationLe)
  {
    var out := CreateFeatures(rows);
    var obs := seq(|out|, i requires 0 <= i < |out| => out[i].obs);
    assert obs == SortObservations(rows);
  }

  /** A location's first row sees only itself. */
  lemma FirstRowHistory(s: seq<Observation>, col: Observation -> real, i: nat)
    requires i < |s|
    requires Series.Grouped(Series.Column(s, Location))
    requires Series.GroupStart(Series.Column(s, Location), i) == i
    ensures ColumnHistory(s, col, i) == [col(s[i])]
  {
    Series.HistoryIsGroupSlice(Series.Column(s, Location), Series.Column(s, col), i);
  }

  /** Every window over a one-row history is that row's value. */
  lemma SingleRowWindows(s: seq<Observation>, col: Observation -> real, i: nat, k: nat)
    requires i < |s| && k >= 1
    requires ColumnHistory(s, col, i) == [col(s[i])]
    ensures RollingSum(s, col, i, k) == col(s[i])
    ensures RollingMax(s, col, i, k) == col(s[i])
    ensures RollingMean(s, col, i, k) == col(s[i])
  {
    Series.SumSingleton(col(s[i]));
  }

  /** A location's first row has its own value in every window and nulls in the shifted columns. */
  lemma FirstRowOfLocation(s: seq<Observation>, i: nat)
    requires i < |s|
    requires Series.Grouped(Series.Column(s, Location))
    requires Series.GroupStart(Series.Column(s, Location), i) == i
    ensures var r := FeatureRowAt(s, i);
      && r.precip7DaySum == r.obs.precipitation
      && r.precip3DaySum == r.obs.precipitation
      && r.precip7DayMax == r.obs.precipitation
      && r.precip14DayAvg == r.obs.precipitation
      && r.temp7DayAvg == r.obs.temperature
      && r.humidity7DayAvg == r.obs.humidity
      && r.precipRateOfChange.None?
      && r.precipitationLag1.None? && r.temperatureLag1.None? && r.humidityLag1.None?
  {
    var keys := Series.Column(s, Location);
    FirstRowHistory(s, Precipitation, i);
    FirstRowHistory(s, Temperature, i);
    FirstRowHistory(s, Humidity, i);
    SingleRowWindows(s, Precipitation, i, 7);
    SingleRowWindows(s, Precipitation, i, 3);
    SingleRowWindows(s, Precipitation, i, 14);
    SingleRowWindows(s, Temperature, i, 7);
    SingleRowWindows(s, Humidity, i, 7);
    Series.LagInGroup(keys, Series.Column(s, Precipitation), i, 1);
    Series.LagInGroup(keys, Series.Column(s, Temperature), i, 1);
    Series.LagInGroup(keys, Series.Column(s, Humidity), i, 1);
  }

  /** The 7-row maximum is at least the day's precipitation. */
  lemma MaxAtLeastDay(rows: seq<Observation>, i: nat)
    requires i < |rows|
    ensures CreateFeatures(rows)[i].precip7DayMax >= CreateFeatures(rows)[i].obs.precipitation
  {
    OutputRow(rows, i);
  }

  /** With non-negative precipitation the 3-row sum never exceeds the 7-row sum. */
  lemma ThreeDayAtMostSevenDay(s: seq<Observation>, i: nat)
    requires i < |s|
    requires forall j :: 0 <= j < |s| ==> s[j].precipitation >= 0.0
    ensures FeatureRowAt(s, i).precip3DaySum <= FeatureRowAt(s, i).precip7DaySum
  {
    var vals := Series.Column(s, Precipitation);
    var h := ColumnHistory(s, Precipitation, i);
    forall k | 0 <= k < |h|
      ensures h[k] >= 0.0
    {
      assert h[k] in vals;
    }
    Series.TrailingSumMonotone(h, 3, 7);
  }

  /** On a row whose predecessor has the same location, the run continues from it. */
  lemma RainyRunContinues(s: seq<Observation>, i: nat)
    requires 0 < i < |s|
    requires s[i - 1].location == s[i].location
    ensures ConsecutiveRainyDays(s, i) ==
      if s[i].precipitation <= 5.0 then 0 else ConsecutiveRainyDays(s, i - 1) + 1
  {
    var h := RainyHistory(s, i);
    var g := RainyHistory(s, i - 1);
    Series.HistoryStep(Series.Column(s, Location), Series.Column(s, RainyFlag), i);
    assert g == h[..|h| - 1];
    RunCumsumIsRainyRun(h, |h| - 1);
    RunCumsumIsRainyRun(g, |g| - 1);
    assert h[..|g|] == g[..|g|];
    RainyRunPrefix(h, g, |g| - 1);
    assert h[|h| - 2] == g[|g| - 1] == RainyFlag(s[i - 1]);
  }

  /** On a location's first row of a grouped frame, the run is that day alone. */
  lemma RainyRunStarts(s: seq<Observation>, i: nat)
    requires i < |s|
    requires Series.Grouped(Series.Column(s, Location))
    requires Series.GroupStart(Series.Column(s, Location), i) == i
    ensures ConsecutiveRainyDays(s, i) == RainyFlag(s[i])
  {
    var h := RainyHistory(s, i);
    Series.HistoryIsGroupSlice(Series.Column(s, Location), Series.Column(s, RainyFlag), i);
    assert |h| == 1;
    RunCumsumIsRainyRun(h, 0);
  }

  /**
   * `consecutive_rainy_days` is 0 on a day of at most 5 mm, and otherwise one more
   * than the previous row's when that row is the same location's (1 on its first row).
   */
  lemma ConsecutiveRainyDaysStep(s: seq<Observation>, i: nat)
    requires i < |s|
    requires Series.Grouped(Series.Column(s, Location))
    ensures ConsecutiveRainyDays(s, i) ==
      if s[i].precipitation <= 5.0 then 0
      else if i == Series.GroupStart(Series.Column(s, Location), i) then 1
      else ConsecutiveRainyDays(s, i - 1) + 1
  {
    var keys := Series.Column(s, Location);
    if i == Series.GroupStart(keys, i) {
      RainyRunStarts(s, i);
    } else {
      assert keys[i - 1] == keys[i];
      RainyRunContinues(s, i);
    }
  }

  /** In a grouped frame a lag is the row `n` above, or null when that row is another location's. */
  lemma LagInFrame(s: seq<Observation>, col: Observation -> real, i: nat, n: nat)
    requires i < |s|
    requires Series.Grouped(Series.Column(s, Location))
    ensures LagOf(s, col, i, n) ==
      if i - n >= Series.GroupStart(Series.Column(s, Location), i) then Some(col(s[i - n])) else None
  {
    Series.LagInGroup(Series.Column(s, Location), Series.Column(s, col), i, n);
  }

  /**
   * In the sorted frame the lags and the difference look at the rows directly above,
   * and are null where that row belongs to another location.
   */
  lemma LagsWithinLocation(s: seq<Observation>, i: nat)
    requires i < |s|
    requires Series.Grouped(Series.Column(s, Location))
    ensures var r := FeatureRowAt(s, i);
      var start := Series.GroupStart(Series.Column(s, Location), i);
      && r.precipitationLag1 == (if i - 1 >= start then Some(s[i - 1].precipitation) else None)
      && r.precipitationLag3 == (if i - 3 >= start then Some(s[i - 3].precipitation) else None)
      && r.precipRateOfChange == (if i - 1 >= start then Some(s[i].precipitation - s[i - 1].precipitation) else None)
  {
    ShiftedCells(s, i);
    PrecipitationLagsInFrame(s, i);
    RateOfChangeInFrame(s, i);
  }

  lemma PrecipitationLagsInFrame(s: seq<Observation>, i: nat)
    requires i < |s|
    requires Series.Grouped(Series.Column(s, Location))
    ensures var start := Series.GroupStart(Series.Column(s, Location), i);
      && LagOf(s, Precipitation, i, 1) == (if i - 1 >= start then Some(s[i - 1].precipitation) else None)
      && LagOf(s, Precipitation, i, 3) == (if i - 3 >= start then Some(s[i - 3].precipitation) else None)
  {
    LagInFrame(s, Precipitation, i, 1);
    LagInFrame(s, Precipitation, i, 3);
  }

  lemma RateOfChangeInFrame(s: seq<Observation>, i: nat)
    requires i < |s|
    requires Series.Grouped(Series.Column(s, Location))
    ensures var start := Series.GroupStart(Series.Column(s, Location), i);
      RateOfChange(s, i) == (if i - 1 >= start then Some(s[i].precipitation - s[i - 1].precipitation) else None)
  {
    LagInFrame(s, Precipitation, i, 1);
  }

  /** The shifted cells of an engineered row. */
  lemma ShiftedCells(s: seq<Observation>, i: nat)
    requires i < |s|
    ensures var r := FeatureRowAt(s, i);
      && r.precipitationLag1 == LagOf(s, Precipitation, i, 1)
      && r.precipitationLag3 == LagOf(s, Precipitation, i, 3)
      && r.precipRateOfChange == RateOfChange(s, i)
  {
  }

  /** The per-row flags: humidity above 80, a June to October month, more than 5 mm. */
  lemma RowFlags(s: seq<Observation>, i: nat)
    requires i < |s|
    ensures var r := FeatureRowAt(s, i);
      && (r.highHumidity == 1 <==> r.obs.humidity > 80.0)
      && (r.highHumidity == 0 <==> r.obs.humidity <= 80.0)
      && (r.isWetSeason == 1 <==> 6 <= r.obs.date.month <= 10)
      && (r.isRainyDay == 1 <==> r.obs.precipitation > 5.0)
  {
  }

  // ---------------------------------------------------------------------------
  // Model input columns
  // ---------------------------------------------------------------------------

  /** `select_feature_columns`: the 21 model inputs, in model order. */
  function FeatureColumns(): (names: seq<string>)
    ensures |names| == 21
  {
    ["precipitation", "precip_7day_sum", "precip_7day_max", "precip_3day_sum", "precip_14day_avg",
     "consecutive_rainy_days", "precip_rate_of_change",
     "temperature", "temp_7day_avg", "humidity", "humidity_7day_avg", "high_humidity", "wind_speed",
     "day_of_year", "month", "is_wet_season",
     "precip_humidity_interaction",
     "precipitation_lag1", "precipitation_lag3", "temperature_lag1", "humidity_lag1"]
  }

  /**
   * Of the six lag columns only `precipitation_lag3` joins the one-day lags; the
   * three-day temperature and humidity lags and the rainy-day flag are not inputs.
   */
  lemma FeatureColumnsSelection()
    ensures "precipitation_lag1" in FeatureColumns() && "precipitation_lag3" in FeatureColumns()
    ensures "temperature_lag1" in FeatureColumns() && "humidity_lag1" in FeatureColumns()
    ensures "temperature_lag3" !in FeatureColumns() && "humidity_lag3" !in FeatureColumns()
    ensures "is_rainy_day" !in FeatureColumns()
  {
    var names := FeatureColumns();
    assert names[17] == "precipitation_lag1" && names[18] == "precipitation_lag3";
    assert names[19] == "temperature_lag1" && names[20] == "humidity_lag1";
    forall k | 0 <= k < |names|
      ensures names[k] != "temperature_lag3" && names[k] != "humidity_lag3" && names[k] != "is_rainy_day"
    {
    }
  }

  /** The cells of a row for the model inputs, in `FeatureColumns` order. */
  function FeatureVector(r: FeatureRow): (v: seq<Option<real>>)
    ensures |v| == |FeatureColumns()|
  {
    [Some(r.obs.precipitation), Some(r.precip7DaySum), Some(r.precip7DayMax), Some(r.precip3DaySum),
     Some(r.precip14DayAvg), Some(r.consecutiveRainyDays as real), r.precipRateOfChange,
     Some(r.obs.temperature), Some(r.temp7DayAvg), Some(r.obs.humidity), Some(r.humidity7DayAvg),
     Some(r.highHumidity as real), Some(r.obs.windSpeed),
     Some(r.dayOfYear as real), Some(r.month as real), Some(r.isWetSeason as real),
     Some(r.precipHumidityInteraction),
     r.precipitationLag1, r.precipitationLag3, r.temperatureLag1, r.humidityLag1]
  }

  /**
   * `create_prediction_features` with explicit dates: the lists become one
   * location's frame, the features are built, and the last row of the sorted
   * frame is returned as the model inputs.  Lists of different lengths, or empty
   * ones, are an error.
   */
  function PredictionFeatures(precipitation: seq<real>, temperature: seq<real>, humidity: seq<real>,
                              windSpeed: seq<real>, dates: seq<Text.Date>): (r: Option<seq<Option<real>>>)
    ensures r.Some? <==> |precipitation| > 0 && |temperature| == |precipitation| && |humidity| == |precipitation|
                         && |windSpeed| == |precipitation| && |dates| == |precipitation|
    ensures r.Some? ==> |r.value| == 21
  {
    var n := |precipitation|;
    if n == 0 || |temperature| != n || |humidity| != n || |windSpeed| != n || |dates| != n then None
    else
      var rows := PredictionRows(precipitation, temperature, humidity, windSpeed, dates);
      var features := CreateFeatures(rows);
      Some(FeatureVector(features[n - 1]))
  }

  function PredictionRows(precipitation: seq<real>, temperature: seq<real>, humidity: seq<real>,
                          windSpeed: seq<real>, dates: seq<Text.Date>): (rows: seq<Observation>)
    requires |temperature| == |precipitation| && |humidity| == |precipitation|
    requires |windSpeed| == |precipitation| && |dates| == |precipitation|
    ensures |rows| == |precipitation|
  {
    seq(|precipitation|, i requires 0 <= i < |precipitation| =>
      Observation(dates[i], "prediction", precipitation[i], temperature[i], humidity[i], windSpeed[i]))
  }

  /** With dates given oldest first, the prediction frame is already in sorted order. */
  lemma PredictionRowsSorted(precipitation: seq<real>, temperature: seq<real>, humidity: seq<real>,
                             windSpeed: seq<real>, dates: seq<Text.Date>)
    requires |temperature| == |precipitation| && |humidity| == |precipitation|
    requires |windSpeed| == |precipitation| && |dates| == |precipitation|
    requires forall i :: 0 <= i < |dates| - 1 ==> Text.DateLe(dates[i], dates[i + 1])
    ensures var rows := PredictionRows(precipitation, temperature, humidity, windSpeed, dates);
      SortObservations(rows) == rows
  {
    var rows := PredictionRows(precipitation, temperature, humidity, windSpeed, dates);
    assert Sorting.SortedBy(rows, ObservationLe);
    ObservationLeTotal();
    Sorting.SortBySorted(rows, ObservationLe);
  }

  /** In a frame of one location, a row's history is the whole column up to that row. */
  lemma OneLocationHistory(s: seq<Observation>, col: Observation -> real, i: nat)
    requires i < |s|
    requires forall j :: 0 <= j <= i ==> s[j].location == s[i].location
    ensures ColumnHistory(s, col, i) == Series.Column(s, col)[..i + 1]
  {
    var keys := Series.Column(s, Location);
    var vals := Series.Column(s, col);
    assert keys[..i + 1][..i] == keys[..i];
    Series.SelectAll(keys[..i + 1], vals[..i + 1], keys[i]);
  }

  /** In a frame of one location, the windows and lags run over the whole column. */
  lemma OneLocationRow(s: seq<Observation>, i: nat)
    requires i < |s|
    requires forall j :: 0 <= j <= i ==> s[j].location == s[i].location
    ensures RollingSum(s, Precipitation, i, 7) == Series.Sum(Series.Trailing(Series.Column(s, Precipitation)[..i + 1], 7))
    ensures LagOf(s, Precipitation, i, 1) == if i >= 1 then Some(s[i - 1].precipitation) else None
  {
    OneLocationHistory(s, Precipitation, i);
    var vals := Series.Column(s, Precipitation);
    var h := Series.History(Series.Column(s, Location), vals, i);
    assert h == vals[..i + 1];
    if i >= 1 {
      assert h[|h| - 2] == vals[i - 1] == s[i - 1].precipitation;
    }
  }

  /** The cells of an engineered row that the prediction lemmas look at. */
  lemma PredictionCells(s: seq<Observation>, i: nat)
    requires i < |s|
    ensures var r := FeatureRowAt(s, i);
      && r.obs == s[i]
      && r.precip7DaySum == RollingSum(s, Precipitation, i, 7)
      && r.precipitationLag1 == LagOf(s, Precipitation, i, 1)
  {
  }

  /** The prediction result is the model-input vector of the last row of the built frame. */
  lemma PredictionIsLastRow(precipitation: seq<real>, temperature: seq<real>, humidity: seq<real>,
                            windSpeed: seq<real>, dates: seq<Text.Date>)
    requires |precipitation| > 0 && |temperature| == |precipitation| && |humidity| == |precipitation|
    requires |windSpeed| == |precipitation| && |dates| == |precipitation|
    requires forall i :: 0 <= i < |dates| - 1 ==> Text.DateLe(dates[i], dates[i + 1])
    ensures var rows := PredictionRows(precipitation, temperature, humidity, windSpeed, dates);
      PredictionFeatures(precipitation, temperature, humidity, windSpeed, dates).value
        == FeatureVector(FeatureRowAt(rows, |precipitation| - 1))
  {
    var rows := PredictionRows(precipitation, temperature, humidity, windSpeed, dates);
    PredictionRowsSorted(precipitation, temperature, humidity, windSpeed, dates);
    OutputRow(rows, |precipitation| - 1);
  }

  /**
   * With dates given oldest first, the returned row is the last day's: its
   * precipitation is the last value, its 7-day sum the sum of the last seven
   * values, and its one-day lag the value before the last.
   */
  lemma PredictionUsesLastDay(precipitation: seq<real>, temperature: seq<real>, humidity: seq<real>,
                              windSpeed: seq<real>, dates: seq<Text.Date>)
    requires |precipitation| > 0 && |temperature| == |precipitation| && |humidity| == |precipitation|
    requires |windSpeed| == |precipitation| && |dates| == |precipitation|
    requires forall i :: 0 <= i < |dates| - 1 ==> Text.DateLe(dates[i], dates[i + 1])
    ensures var n := |precipitation|;
      var v := PredictionFeatures(precipitation, temperature, humidity, windSpeed, dates).value;
      && v[0] == Some(precipitation[n - 1])
      && v[1] == Some(Series.Sum(Series.Trailing(precipitation, 7)))
      && v[17] == (if n >= 2 then Some(precipitation[n - 2]) else None)
  {
    PredictionIsLastRow(precipitation, temperature, humidity, windSpeed, dates);
    LastPredictionRow(precipitation, temperature, humidity, windSpeed, dates);
  }

  lemma LastPredictionRow(precipitation: seq<real>, temperature: seq<real>, humidity: seq<real>,
                          windSpeed: seq<real>, dates: seq<Text.Date>)
    requires |precipitation| > 0 && |temperature| == |precipitation| && |humidity| == |precipitation|
    requires |windSpeed| == |precipitation| && |dates| == |precipitation|
    ensures var n := |precipitation|;
      var v := FeatureVector(FeatureRowAt(PredictionRows(precipitation, temperature, humidity, windSpeed, dates), n - 1));
      && v[0] == Some(precipitation[n - 1])
      && v[1] == Some(Series.Sum(Series.Trailing(precipitation, 7)))
      && v[17] == (if n >= 2 then Some(precipitation[n - 2]) else None)
  {
    var rows := PredictionRows(precipitation, temperature, humidity, windSpeed, dates);
    PredictionColumn(precipitation, temperature, humidity, windSpeed, dates);
    LastRowOfOneLocation(rows, precipitation);
    PredictionCells(rows, |precipitation| - 1);
    FeatureVectorCells(FeatureRowAt(rows, |precipitation| - 1));
  }

  /** The last row of a one-location frame, whose precipitation column is `p`. */
  lemma LastRowOfOneLocation(s: seq<Observation>, p: seq<real>)
    requires |s| == |p| > 0
    requires forall j :: 0 <= j < |s| ==> s[j].location == s[|s| - 1].location
    requires forall j :: 0 <= j < |s| ==> s[j].precipitation == p[j]
    ensures RollingSum(s, Precipitation, |s| - 1, 7) == Series.Sum(Series.Trailing(p, 7))
    ensures LagOf(s, Precipitation, |s| - 1, 1) == (if |p| >= 2 then Some(p[|p| - 2]) else None)
  {
    var n := |s| - 1;
    OneLocationRow(s, n);
    assert Series.Column(s, Precipitation)[..n + 1] == p;
    if n >= 1 {
      assert s[n - 1].precipitation == p[n - 1];
    }
  }

  lemma PredictionColumn(precipitation: seq<real>, temperature: seq<real>, humidity: seq<real>,
                         windSpeed: seq<real>, dates: seq<Text.Date>)
    requires |temperature| == |precipitation| && |humidity| == |precipitation|
    requires |windSpeed| == |precipitation| && |dates| == |precipitation|
    ensures var rows := PredictionRows(precipitation, temperature, humidity, windSpeed, dates);
      && Series.Column(rows, Precipitation)[..|precipitation|] == precipitation
      && forall i :: 0 <= i < |rows| ==> rows[i].precipitation == precipitation[i]
  {
    var rows := PredictionRows(precipitation, temperature, humidity, windSpeed, dates);
    assert Series.Column(rows, Precipitation)[..|precipitation|] == Series.Column(rows, Precipitation);
  }

  lemma FeatureVectorCells(r: FeatureRow)
    ensures var v := FeatureVector(r);
      v[0] == Some(r.obs.precipitation) && v[1] == Some(r.precip7DaySum) && v[17] == r.precipitationLag1
  {
  }
}
