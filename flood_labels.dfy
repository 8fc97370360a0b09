/**
 * The enhanced flood labeller of backend/enhance_flood_labels.py.
 *
 * The table is sorted by (location, date); for every row it derives per-location
 * trailing precipitation sums and a 30-row intensity ratio, evaluates nine
 * threshold criteria, and writes `flood_occurred`, `flood_confidence` and
 * `flood_reason` in three masked passes of decreasing confidence, after which
 * MODIS-sourced rows are overridden.
 */
module FloodLabels {
  import opened Wrappers
  import Text
  import Sorting
  import Series

  /** The input columns the labeller reads; `None` is a missing (NaN) cell. */
  datatype Row = Row(
    location: string,
    date: string,
    precipitation: real,
    humidity: real,
    imergAvailable: Option<real>,
    labelSource: Option<string>)

  /** A table, and whether its optional `imerg_available` and `label_source` columns exist. */
  datatype Table = Table(rows: seq<Row>, hasImergColumn: bool, hasLabelSourceColumn: bool)

  function Location(r: Row): string { r.location }
  function Precipitation(r: Row): real { r.precipitation }

  /** `sort_values(['location', 'date'])`: location first, then the date text. */
  predicate RowLe(a: Row, b: Row)
  {
    Text.StrLt(a.location, b.location) || (a.location == b.location && Text.StrLe(a.date, b.date))
  }

  lemma RowLeTotal()
    ensures Sorting.Total(RowLe)
  {
    forall a: Row, b: Row
      ensures RowLe(a, b) || RowLe(b, a)
    {
      Text.StrLtTotal(a.location, b.location);
      Text.StrLeTotal(a.date, b.date);
    }
  }

  lemma RowLeComparesLocation()
    ensures forall a, b :: RowLe(a, b) ==> Text.StrLe(Location(a), Location(b))
  {
  }

  /** The sorted frame: a permutation of the rows, ordered, with each location's rows adjacent. */
  function SortRows(rows: seq<Row>): (s: seq<Row>)
    ensures Sorting.SortedBy(s, RowLe)
    ensures multiset(s) == multiset(rows) && |s| == |rows|
    ensures Series.Grouped(Series.Column(s, Location))
  {
    RowLeTotal();
    var s := Sorting.SortBy(rows, RowLe);
    RowLeComparesLocation();
    Series.SortedKeysGrouped(s, RowLe, Location);
    s
  }

  // ---------------------------------------------------------------------------
  // Per-location features
  // ---------------------------------------------------------------------------

  /** The precipitation of row `i`'s location up to and including row `i`. */
  function PrecipHistory(s: seq<Row>, i: nat): (h: seq<real>)
    requires i < |s|
    ensures h != [] && h[|h| - 1] == s[i].precipitation
  {
    Series.History(Series.Column(s, Location), Series.Column(s, Precipitation), i)
  }

  /**
   * `calculate_antecedent_precipitation`: the sum of the location's last `days`
   * rows up to row `i` (`min_periods=1`, so a location's first row is its own value).
   */
  function Antecedent(s: seq<Row>, i: nat, days: nat): (total: real)
    requires i < |s| && days >= 1
    ensures |PrecipHistory(s, i)| == 1 ==> total == s[i].precipitation
  {
    var h := PrecipHistory(s, i);
    var w := Series.Trailing(h, days);
    if |h| == 1 then
      assert h == [s[i].precipitation] && w == h;
      Series.SumSingleton(s[i].precipitation);
      Series.Sum(w)
    else Series.Sum(w)
  }

  /** The 30-row trailing mean, defined once the window holds at least 15 rows (`min_periods=15`). */
  function Mean30(s: seq<Row>, i: nat): (m: Option<real>)
    requires i < |s|
    ensures m.Some? <==> |PrecipHistory(s, i)| >= 15
    ensures m.Some? ==> m.value == Series.Mean(Series.Trailing(PrecipHistory(s, i), 30))
  {
    var w := Series.Trailing(PrecipHistory(s, i), 30);
    if |w| >= 15 then Some(Series.Mean(w)) else None
  }

  /**
   * `precipitation / (avg_30d + 0.1) > bound` under IEEE rules: an undefined mean
   * gives NaN (false); a zero denominator gives +inf for positive precipitation.
   */
  predicate IntensityAbove(p: real, mean30: Option<real>, bound: real)
  {
    mean30.Some? &&
    var denominator := mean30.value + 0.1;
    if denominator == 0.0 then p > 0.0 else p / denominator > bound
  }

  // ---------------------------------------------------------------------------
  // Criteria and tiers
  // ---------------------------------------------------------------------------

  datatype Criteria = Criteria(c1: bool, c2: bool, c3: bool, c4: bool, c5: bool,
                               c6: bool, c7: bool, c8: bool, c9: bool)

  /** The nine criteria from a row's own values and its derived features. */
  function CriteriaFor(p: real, h: real, p3: real, p7: real, mean30: Option<real>, imergFlag: bool): Criteria
  {
    Criteria(
      c1 := p > 80.0,
      c2 := p > 60.0 && h > 85.0,
      c3 := p3 > 120.0 && p > 25.0,
      c4 := p7 > 150.0 && p > 30.0 && h > 82.0,
      c5 := IntensityAbove(p, mean30, 6.0) && p > 40.0,
      c6 := p > 50.0 && p7 > 120.0 && h > 88.0,
      c7 := imergFlag && p > 70.0,
      c8 := p > 45.0 && h > 90.0,
      c9 := p3 > 90.0 && p > 20.0 && h > 85.0)
  }

  /** Criterion 7's flag: the column exists and the cell equals 1. */
  predicate ImergFlag(t: Table, r: Row)
  {
    t.hasImergColumn && r.imergAvailable == Some(1.0)
  }

  function CriteriaAt(t: Table, s: seq<Row>, i: nat): Criteria
    requires i < |s|
  {
    CriteriaFor(s[i].precipitation, s[i].humidity, Antecedent(s, i, 3), Antecedent(s, i, 7),
                Mean30(s, i), ImergFlag(t, s[i]))
  }

  predicate HighMask(c: Criteria) { c.c1 || (c.c3 && c.c2) }
  predicate MediumHighMask(c: Criteria) { !HighMask(c) && (c.c2 || c.c4 || c.c7 || c.c8) }
  predicate MediumMask(c: Criteria) { !HighMask(c) && !MediumHighMask(c) && (c.c5 || c.c6 || c.c9) }

  /** `label_source.str.contains('modis', na=False)`, when that column exists. */
  predicate ModisDetected(t: Table, r: Row)
  {
    t.hasLabelSourceColumn && r.labelSource.Some? && Text.Contains(r.labelSource.value, "modis")
  }

  datatype Reason = NoFlood | HighConfidence | MediumHighConfidence | MediumConfidence | ModisSatellite

  function ReasonName(r: Reason): string
  {
    match r
    case NoFlood => "no_flood"
    case HighConfidence => "high_confidence"
    case MediumHighConfidence => "medium_high_confidence"
    case MediumConfidence => "medium_confidence"
    case ModisSatellite => "modis_satellite"
  }

  /** The three label columns of one row. */
  datatype Label = Label(floodOccurred: int, confidence: real, reason: Reason)

  /** The flag and confidence that go with each reason. */
  function LabelFor(r: Reason): Label
  {
    match r
    case NoFlood => Label(0, 0.0, NoFlood)
    case HighConfidence => Label(1, 0.95, HighConfidence)
    case MediumHighConfidence => Label(1, 0.80, MediumHighConfidence)
    case MediumConfidence => Label(1, 0.65, MediumConfidence)
    case ModisSatellite => Label(1, 0.90, ModisSatellite)
  }

  /** The reason a row holds after the first `passes` masked assignments. */
  function ReasonAfterPasses(c: Criteria, passes: nat): Reason
    requires passes <= 3
  {
    if passes == 0 then NoFlood
    else if passes == 1 then (if HighMask(c) then HighConfidence else NoFlood)
    else if passes == 2 then (if MediumHighMask(c) then MediumHighConfidence else ReasonAfterPasses(c, 1))
    else if MediumMask(c) then MediumConfidence else ReasonAfterPasses(c, 2)
  }

  /** The reason after all passes and the MODIS override. */
  function FinalReason(c: Criteria, modis: bool): Reason
  {
    if modis then ModisSatellite else ReasonAfterPasses(c, 3)
  }

  /**
   * The passes amount to a strict priority: MODIS, then high, medium-high and
   * medium confidence, then no flood; a later pass never overrides an earlier one.
   */
  lemma ReasonPriority(c: Criteria, modis: bool)
    ensures FinalReason(c, modis) == ModisSatellite <==> modis
    ensures FinalReason(c, modis) == HighConfidence <==> !modis && (c.c1 || (c.c3 && c.c2))
    ensures FinalReason(c, modis) == MediumHighConfidence <==>
      !modis && !(c.c1 || (c.c3 && c.c2)) && (c.c2 || c.c4 || c.c7 || c.c8)
    ensures FinalReason(c, modis) == MediumConfidence <==>
      !modis && !(c.c1 || (c.c3 && c.c2)) && !(c.c2 || c.c4 || c.c7 || c.c8) && (c.c5 || c.c6 || c.c9)
    ensures FinalReason(c, modis) == NoFlood <==>
      !modis && !c.c1 && !c.c2 && !c.c4 && !c.c5 && !c.c6 && !c.c7 && !c.c8 && !c.c9
  {
    var r1 := ReasonAfterPasses(c, 1);
    var r2 := ReasonAfterPasses(c, 2);
    assert r2 == if MediumHighMask(c) then MediumHighConfidence else r1;
    assert ReasonAfterPasses(c, 3) == if MediumMask(c) then MediumConfidence else r2;
  }

  /** `flood_occurred` is 1 exactly when the reason is not `no_flood`. */
  lemma FloodFlagMatchesReason(r: Reason)
    ensures LabelFor(r).reason == r
    ensures LabelFor(r).floodOccurred == (if r == NoFlood then 0 else 1)
    ensures r != NoFlood ==> 0.65 <= LabelFor(r).confidence <= 0.95
  {
  }

  // ---------------------------------------------------------------------------
  // The labelled table
  // ---------------------------------------------------------------------------

  /** One output row: the input row, its two antecedent sums and its label (intensity is dropped). */
  datatype LabelledRow = LabelledRow(
    row: Row, precip7Day: real, precip3Day: real,
    floodOccurred: int, confidence: real, reason: Reason)

  function LabelledAt(t: Table, s: seq<Row>, i: nat, l: Label): LabelledRow
    requires i < |s|
  {
    LabelledRow(s[i], Antecedent(s, i, 7), Antecedent(s, i, 3), l.floodOccurred, l.confidence, l.reason)
  }

  /** Row `i` of the sorted frame with its final label. */
  function LabelRow(t: Table, s: seq<Row>, i: nat): LabelledRow
    requires i < |s|
  {
    LabelledAt(t, s, i, LabelFor(FinalReason(CriteriaAt(t, s, i), ModisDetected(t, s[i]))))
  }

  /** The result of `identify_flood_events_enhanced` as a specification. */
  function LabelTable(t: Table): (out: seq<LabelledRow>)
    ensures |out| == |t.rows|
    ensures forall i :: 0 <= i < |out| ==> out[i] == LabelRow(t, SortRows(t.rows), i)
  {
    var s := SortRows(t.rows);
    seq(|s|, i requires 0 <= i < |s| => LabelRow(t, s, i))
  }

  /** The MODIS mask from the `label_source` column (`na=False`: a missing cell is no match). */
  predicate ModisCell(hasLabelSourceColumn: bool, cell: Option<string>)
  {
    hasLabelSourceColumn && cell.Some? && Text.Contains(cell.value, "modis")
  }

  /**
   * The masked assignments: every row starts as no flood, then each tier's mask
   * overwrites the three label columns, and finally the MODIS rows.
   */
  method ApplyLabelPasses(criteria: seq<Criteria>, hasLabelSourceColumn: bool, labelSources: seq<Option<string>>)
    returns (labels: seq<Label>)
    requires |labelSources| == |criteria|
    ensures |labels| == |criteria|
    ensures forall j :: 0 <= j < |criteria| ==>
      labels[j] == LabelFor(FinalReason(criteria[j], ModisCell(hasLabelSourceColumn, labelSources[j])))
  {
    var a := new Label[|criteria|](_ => Label(0, 0.0, NoFlood));
    assert forall j :: 0 <= j < a.Length ==> a[j] == LabelFor(ReasonAfterPasses(criteria[j], 0));
    ApplyTier(a, criteria, 1);
    ApplyTier(a, criteria, 2);
    ApplyTier(a, criteria, 3);
    if hasLabelSourceColumn {
      ApplyModisOverride(a, criteria, labelSources);
    }
    labels := a[..];
  }

  /** The mask of pass `pass` (1 high, 2 medium-high, 3 medium). */
  predicate TierMask(c: Criteria, pass: nat)
  {
    if pass == 1 then HighMask(c) else if pass == 2 then MediumHighMask(c) else MediumMask(c)
  }

  /** The labels pass `pass` writes under its mask. */
  function TierLabel(pass: nat): (l: Label)
    ensures l.floodOccurred == 1
  {
    if pass == 1 then Label(1, 0.95, HighConfidence)
    else if pass == 2 then Label(1, 0.80, MediumHighConfidence)
    else Label(1, 0.65, MediumConfidence)
  }

  /** One `df.loc[mask, [...]] = [...]` assignment over every row. */
  method ApplyTier(a: array<Label>, criteria: seq<Criteria>, pass: nat)
    modifies a
    requires a.Length == |criteria| && 1 <= pass <= 3
    requires forall j :: 0 <= j < a.Length ==> a[j] == LabelFor(ReasonAfterPasses(criteria[j], pass - 1))
    ensures forall j :: 0 <= j < a.Length ==> a[j] == LabelFor(ReasonAfterPasses(criteria[j], pass))
  {
    var i := 0;
    while i < a.Length
      invariant 0 <= i <= a.Length
      invariant forall j :: 0 <= j < i ==> a[j] == LabelFor(ReasonAfterPasses(criteria[j], pass))
      invariant forall j :: i <= j < a.Length ==> a[j] == LabelFor(ReasonAfterPasses(criteria[j], pass - 1))
    {
      if TierMask(criteria[i], pass) {
        a[i] := TierLabel(pass);
      }
      i := i + 1;
    }
  }

  /** The MODIS assignment, run only when the `label_source` column exists. */
  method ApplyModisOverride(a: array<Label>, criteria: seq<Criteria>, labelSources: seq<Option<string>>)
    modifies a
    requires a.Length == |criteria| == |labelSources|
    requires forall j :: 0 <= j < a.Length ==> a[j] == LabelFor(ReasonAfterPasses(criteria[j], 3))
    ensures forall j :: 0 <= j < a.Length ==> a[j] == LabelFor(FinalReason(criteria[j], ModisCell(true, labelSources[j])))
  {
    var i := 0;
    while i < a.Length
      invariant 0 <= i <= a.Length
      invariant forall j :: 0 <= j < i ==> a[j] == LabelFor(FinalReason(criteria[j], ModisCell(true, labelSources[j])))
      invariant forall j :: i <= j < a.Length ==> a[j] == LabelFor(ReasonAfterPasses(criteria[j], 3))
    {
      if labelSources[i].Some? && Text.Contains(labelSources[i].value, "modis") {
        a[i] := Label(1, 0.90, ModisSatellite);
      }
      i := i + 1;
    }
  }

  function LabelSource(r: Row): Option<string> { r.labelSource }

  /**
   * `identify_flood_events_enhanced`: sort, derive the criteria, apply the masked
   * passes, and return the rows with their antecedent sums and labels.
   */
  method IdentifyFloodEvents(t: Table) returns (out: seq<LabelledRow>)
    ensures out == LabelTable(t)
  {
    var s := SortRows(t.rows);
    var n := |s|;
    var criteria := seq(n, i requires 0 <= i < n => CriteriaAt(t, s, i));
    var sources := Series.Column(s, LabelSource);
    var labels := ApplyLabelPasses(criteria, t.hasLabelSourceColumn, sources);
    out := seq(n, j requires 0 <= j < n => LabelledAt(t, s, j, labels[j]));
    forall j | 0 <= j < n
      ensures out[j] == LabelRow(t, s, j)
    {
      assert ModisCell(t.hasLabelSourceColumn, sources[j]) == ModisDetected(t, s[j]);
    }
  }

  // ---------------------------------------------------------------------------
  // Properties of the labelled table
  // ---------------------------------------------------------------------------

  /** The output holds the same rows, sorted by (location, date). */
  lemma SameRowsSorted(t: Table)
    ensures var out := LabelTable(t);
      var rows := seq(|out|, i requires 0 <= i < |out| => out[i].row);
      multiset(rows) == multiset(t.rows) && Sorting.SortedBy(rows, RowLe)
  {
    var out := LabelTable(t);
    var rows := seq(|out|, i requires 0 <= i < |out| => out[i].row);
    assert rows == SortRows(t.rows);
  }

  /** Every output row's label is one of the five, with the flag set iff it is not `no_flood`. */
  lemma LabelsConsistent(t: Table, i: nat)
    requires i < |t.rows|
    ensures var o := LabelTable(t)[i];
      && (o.floodOccurred == 1 <==> o.reason != NoFlood)
      && (o.floodOccurred == 0 <==> o.reason == NoFlood)
      && LabelFor(o.reason) == Label(o.floodOccurred, o.confidence, o.reason)
  {
    var s := SortRows(t.rows);
    FloodFlagMatchesReason(FinalReason(CriteriaAt(t, s, i), ModisDetected(t, s[i])));
  }

  /** A row whose `label_source` mentions MODIS ends as a MODIS flood, whatever else it matched. */
  lemma ModisOverrides(t: Table, i: nat)
    requires i < |t.rows|
    requires ModisDetected(t, LabelTable(t)[i].row)
    ensures LabelTable(t)[i].floodOccurred == 1
    ensures LabelTable(t)[i].confidence == 0.90
    ensures LabelTable(t)[i].reason == ModisSatellite
  {
    var s := SortRows(t.rows);
    assert LabelTable(t)[i] == LabelRow(t, s, i);
    LabelRowCells(t, s, i);
  }

  /** A labelled row keeps its input row, and a MODIS detection on it decides its label. */
  lemma LabelRowCells(t: Table, s: seq<Row>, i: nat)
    requires i < |s|
    ensures LabelRow(t, s, i).row == s[i]
    ensures ModisDetected(t, s[i]) ==> LabelRow(t, s, i).floodOccurred == 1
    ensures ModisDetected(t, s[i]) ==> LabelRow(t, s, i).confidence == 0.90
    ensures ModisDetected(t, s[i]) ==> LabelRow(t, s, i).reason == ModisSatellite
  {
    var c := CriteriaAt(t, s, i);
    var l := LabelFor(FinalReason(c, ModisDetected(t, s[i])));
    assert LabelRow(t, s, i) == LabelledAt(t, s, i, l);
    LabelledAtCells(t, s, i, l);
    if ModisDetected(t, s[i]) {
      ModisLabel(c);
    }
  }

  lemma LabelledAtCells(t: Table, s: seq<Row>, i: nat, l: Label)
    requires i < |s|
    ensures LabelledAt(t, s, i, l).row == s[i]
    ensures LabelledAt(t, s, i, l).floodOccurred == l.floodOccurred
    ensures LabelledAt(t, s, i, l).confidence == l.confidence
    ensures LabelledAt(t, s, i, l).reason == l.reason
  {
  }

  /** The MODIS label is the same whatever the criteria say. */
  lemma ModisLabel(c: Criteria)
    ensures LabelFor(FinalReason(c, true)) == Label(1, 0.90, ModisSatellite)
  {
  }

  /** Without the `imerg_available` column criterion 7 never holds. */
  lemma NoImergColumnNoCriterion7(t: Table, i: nat)
    requires !t.hasImergColumn
    requires i < |t.rows|
    ensures !CriteriaAt(t, SortRows(t.rows), i).c7
  {
  }

  /**
   * The intensity criterion cannot hold on a location's first 14 rows, since the
   * 30-row mean needs at least 15 of them.
   */
  lemma NoIntensityEarly(t: Table, i: nat)
    requires i < |t.rows|
    requires var s := SortRows(t.rows); i - Series.GroupStart(Series.Column(s, Location), i) < 14
    ensures !CriteriaAt(t, SortRows(t.rows), i).c5
  {
    var s := SortRows(t.rows);
    Series.HistoryIsGroupSlice(Series.Column(s, Location), Series.Column(s, Precipitation), i);
  }

  /**
   * The antecedent sums stay within the location: they add the slice of the
   * location's rows ending at row `i`, of length at most `days`.
   */
  lemma AntecedentWithinLocation(t: Table, i: nat, days: nat)
    requires i < |t.rows| && days >= 1
    ensures var s := SortRows(t.rows);
      var start := Series.GroupStart(Series.Column(s, Location), i);
      var from := if i + 1 - start <= days then start else i + 1 - days;
      Antecedent(s, i, days) == Series.Sum(Series.Column(s, Precipitation)[from..i + 1])
  {
    var s := SortRows(t.rows);
    var vals := Series.Column(s, Precipitation);
    var start := Series.GroupStart(Series.Column(s, Location), i);
    Series.HistoryIsGroupSlice(Series.Column(s, Location), vals, i);
    var h := vals[start..i + 1];
    assert PrecipHistory(s, i) == h;
    var from := if i + 1 - start <= days then start else i + 1 - days;
    assert Series.Trailing(h, days) == vals[from..i + 1];
  }

  /** With non-negative precipitation the 3-day sum never exceeds the 7-day sum. */
  lemma ThreeDayAtMostSevenDay(t: Table, i: nat)
    requires i < |t.rows|
    requires forall j :: 0 <= j < |t.rows| ==> t.rows[j].precipitation >= 0.0
    ensures LabelTable(t)[i].precip3Day <= LabelTable(t)[i].precip7Day
  {
    var s := SortRows(t.rows);
    var h := PrecipHistory(s, i);
    var vals := Series.Column(s, Precipitation);
    forall j | 0 <= j < |s|
      ensures vals[j] >= 0.0
    {
      assert s[j] in multiset(t.rows);
    }
    forall k | 0 <= k < |h|
      ensures h[k] >= 0.0
    {
      assert h[k] in vals;
    }
    Series.TrailingSumMonotone(h, 3, 7);
    assert LabelTable(t)[i] == LabelRow(t, s, i);
  }

  // ---------------------------------------------------------------------------
  // enhance_existing_dataset
  // ---------------------------------------------------------------------------

  /** The labelled rows with `label_source` replaced by `flood_reason`, as the next input. */
  function EnhanceExisting(t: Table): (r: Table)
    ensures |r.rows| == |t.rows| && r.hasLabelSourceColumn && r.hasImergColumn == t.hasImergColumn
  {
    var out := LabelTable(t);
    Table(seq(|out|, i requires 0 <= i < |out| =>
            out[i].row.(labelSource := Some(ReasonName(out[i].reason)))),
          t.hasImergColumn, true)
  }

  /** Only the `modis_satellite` reason name mentions MODIS. */
  lemma ModisNameOnly(r: Reason)
    ensures Text.Contains(ReasonName(r), "modis") <==> r == ModisSatellite
  {
    if r == ModisSatellite {
      assert ReasonName(r)[0..|"modis"|] == "modis";
      Text.ContainsAt(ReasonName(r), "modis", 0);
    } else {
      assert 's' in "modis";
      Text.MissingCharNotContains(ReasonName(r), "modis", 's');
    }
  }

  /**
   * After `label_source` is overwritten with the reason, a second run detects MODIS
   * on exactly the rows the first run labelled `modis_satellite`.
   */
  lemma RelabelKeepsModis(t: Table, i: nat)
    requires i < |t.rows|
    ensures ModisDetected(EnhanceExisting(t), EnhanceExisting(t).rows[i]) <==> LabelTable(t)[i].reason == ModisSatellite
  {
    ModisNameOnly(LabelTable(t)[i].reason);
  }
}
