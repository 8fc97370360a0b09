/**
 * The record-building loops of the two data-collection scripts:
 * backend/scripts/fetch_power_data.py turns NASA POWER's date-keyed parameter
 * maps into daily rows, dropping days with a missing or -999 value, and
 * backend/scripts/fetch_imerg_data.py turns the GES DISC ASCII time series
 * into daily precipitation rows, one per data line.
 */
module FetchScripts {
  import opened Wrappers
  import Text
  import AppUtils

  /** One entry of the scripts' LOCATIONS table. */
  datatype Location = Location(name: string, latitude: real, longitude: real)

  /** The results of `f` over `items` that are present, in item order: the scripts' append-if-kept loops. */
  function Collect<T, R>(items: seq<T>, f: T -> Option<R>): seq<R>
  {
    if items == [] then []
    else
      var n := |items| - 1;
      Collect(items[..n], f) + match f(items[n]) case None => [] case Some(r) => [r]
  }

  /** One more item appends its result, if any. */
  lemma CollectStep<T, R>(items: seq<T>, f: T -> Option<R>, i: nat)
    requires i < |items|
    ensures Collect(items[..i + 1], f) == Collect(items[..i], f) + match f(items[i]) case None => [] case Some(r) => [r]
  {
    assert items[..i + 1][..i] == items[..i];
  }

  /** At most one result per item. */
  lemma {:induction false} CollectBound<T, R>(items: seq<T>, f: T -> Option<R>)
    ensures |Collect(items, f)| <= |items|
  {
    if items != [] {
      CollectBound(items[..|items| - 1], f);
    }
  }

  /** A value is collected exactly when some item yields it. */
  lemma {:induction false} CollectMembers<T, R>(items: seq<T>, f: T -> Option<R>, r: R)
    ensures r in Collect(items, f) <==> exists i :: 0 <= i < |items| && f(items[i]) == Some(r)
  {
    if items != [] {
      var n := |items| - 1;
      var init := items[..n];
      CollectMembers(init, f, r);
      var last := match f(items[n]) case None => [] case Some(x) => [x];
      assert Collect(items, f) == Collect(init, f) + last;
      if r in Collect(init, f) {
        var i :| 0 <= i < n && f(init[i]) == Some(r);
        assert init[i] == items[i];
      } else if r in last {
        assert f(items[n]) == Some(r);
      }
      if exists i :: 0 <= i < |items| && f(items[i]) == Some(r) {
        var i :| 0 <= i < |items| && f(items[i]) == Some(r);
        if i < n {
          assert init[i] == items[i];
        }
      }
    }
  }

  /** Results follow item order: those of a prefix are a prefix of the whole. */
  lemma {:induction false} CollectPrefix<T, R>(items: seq<T>, f: T -> Option<R>, k: nat)
    requires k <= |items|
    ensures Collect(items[..k], f) <= Collect(items, f)
    decreases |items| - k
  {
    if k < |items| {
      var n := |items| - 1;
      CollectPrefix(items[..n], f, k);
      assert items[..n][..k] == items[..k];
    } else {
      assert items[..k] == items;
    }
  }

  // ---------------------------------------------------------------------------
  // NASA POWER
  // ---------------------------------------------------------------------------

  /** POWER's marker for a value it does not have. */
  const MissingValue: real := -999.0

  /** One parameter's values in the answer's key order; a JSON null is `None`. */
  type DateValues = seq<(string, Option<real>)>

  /** The dates of a parameter, in key order: `list(values.keys())`. */
  function Keys(values: DateValues): (keys: seq<string>)
    ensures |keys| == |values|
    ensures forall i :: 0 <= i < |values| ==> keys[i] == values[i].0
  {
    seq(|values|, i requires 0 <= i < |values| => values[i].0)
  }

  /** `values.get(date)`: the value of the first entry with that key, `None` when absent or null. */
  function Lookup(values: DateValues, date: string): (v: Option<real>)
    ensures v.Some? ==> exists i :: 0 <= i < |values| && values[i] == (date, v)
    ensures date !in Keys(values) ==> v.None?
  {
    if values == [] then None
    else if values[0].0 == date then values[0].1
    else
      var v := Lookup(values[1..], date);
      assert Keys(values[1..]) == Keys(values)[1..];
      assert v.Some? ==> exists i :: 0 <= i < |values[1..]| && values[1..][i] == (date, v);
      v
  }

  /** The keys of a decoded JSON object are distinct. */
  predicate DistinctKeys(values: DateValues)
  {
    forall i, j :: 0 <= i < j < |values| ==> values[i].0 != values[j].0
  }

  /** The first entry with a key is the one `.get` returns. */
  lemma {:induction false} LookupFirst(values: DateValues, i: nat)
    requires i < |values|
    requires forall j :: 0 <= j < i ==> values[j].0 != values[i].0
    ensures Lookup(values, values[i].0) == values[i].1
  {
    if i > 0 {
      LookupFirst(values[1..], i - 1);
    }
  }

  /** With distinct keys, `.get(key)` returns the value stored under that key. */
  lemma LookupStored(values: DateValues, i: nat)
    requires DistinctKeys(values) && i < |values|
    ensures Lookup(values, values[i].0) == values[i].1
  {
    LookupFirst(values, i);
  }

  /** `parameters.get(name, {})`. */
  function Parameter(parameters: map<string, DateValues>, name: string): DateValues
  {
    if name in parameters then parameters[name] else []
  }

  /** A daily row kept by the POWER script; every measurement is present. */
  datatype PowerRecord = PowerRecord(
    date: string, location: string, latitude: real, longitude: real,
    temperature: real, precipitation: real, humidity: real, windSpeed: real,
    source: string)

  /** A measurement the script keeps: present and not the -999 marker. */
  predicate Usable(v: Option<real>)
  {
    v.Some? && v.value != MissingValue
  }

  /**
   * The row for one T2M date: none when the date is not a valid YYYYMMDD
   * date or when any of the four measurements is missing or -999.
   */
  function PowerRecordFor(loc: Location, parameters: map<string, DateValues>, date: string): (r: Option<PowerRecord>)
    ensures r.Some? <==>
      && Text.ParseBasicDate(date).Some?
      && Usable(Lookup(Parameter(parameters, "T2M"), date))
      && Usable(Lookup(Parameter(parameters, "PRECTOTCORR"), date))
      && Usable(Lookup(Parameter(parameters, "RH2M"), date))
      && Usable(Lookup(Parameter(parameters, "WS2M"), date))
    ensures r.Some? ==>
      && r.value.date == Text.FormatExtendedDate(Text.ParseBasicDate(date).value)
      && r.value.temperature == Lookup(Parameter(parameters, "T2M"), date).value
      && r.value.precipitation == Lookup(Parameter(parameters, "PRECTOTCORR"), date).value
      && r.value.humidity == Lookup(Parameter(parameters, "RH2M"), date).value
      && r.value.windSpeed == Lookup(Parameter(parameters, "WS2M"), date).value
    ensures r.Some? ==> r.value.location == loc.name && r.value.latitude == loc.latitude
    ensures r.Some? ==> r.value.longitude == loc.longitude && r.value.source == "POWER"
  {
    match Text.ParseBasicDate(date)
    case None => None
    case Some(d) =>
      var t := Lookup(Parameter(parameters, "T2M"), date);
      var p := Lookup(Parameter(parameters, "PRECTOTCORR"), date);
      var h := Lookup(Parameter(parameters, "RH2M"), date);
      var w := Lookup(Parameter(parameters, "WS2M"), date);
      if Usable(t) && Usable(p) && Usable(h) && Usable(w) then
        Some(PowerRecord(Text.FormatExtendedDate(d), loc.name, loc.latitude, loc.longitude,
                         t.value, p.value, h.value, w.value, "POWER"))
      else None
  }

  /** The row-building step as a function value. */
  function PowerRowOf(loc: Location, parameters: map<string, DateValues>): string -> Option<PowerRecord>
  {
    (date: string) => PowerRecordFor(loc, parameters, date)
  }

  /** The rows for a list of dates, in list order. */
  function PowerRecords(loc: Location, parameters: map<string, DateValues>, dates: seq<string>): seq<PowerRecord>
  {
    Collect(dates, PowerRowOf(loc, parameters))
  }

  /**
   * `fetch_power_for_location` after its HTTP call: no rows for an empty
   * parameter map, otherwise one row per T2M date that passes the filter.
   */
  method PowerRecordsFromParameters(loc: Location, parameters: map<string, DateValues>) returns (records: seq<PowerRecord>)
    ensures parameters == map[] ==> records == []
    ensures records == if parameters == map[] then [] else PowerRecords(loc, parameters, Keys(Parameter(parameters, "T2M")))
    ensures |records| <= |Parameter(parameters, "T2M")|
  {
    if parameters == map[] {
      return [];
    }
    var dates := Keys(Parameter(parameters, "T2M"));
    records := [];
    for i := 0 to |dates|
      invariant records == PowerRecords(loc, parameters, dates[..i])
    {
      CollectStep(dates, PowerRowOf(loc, parameters), i);
      var r := PowerRecordFor(loc, parameters, dates[i]);
      if r.Some? {
        records := records + [r.value];
      }
    }
    assert dates[..|dates|] == dates;
    CollectBound(dates, PowerRowOf(loc, parameters));
  }

  /**
   * Every kept row comes from a T2M date, carries that date in extended
   * form, and has all four measurements present and not -999; there are
   * no more rows than T2M dates.
   */
  lemma PowerRecordsFromT2M(loc: Location, parameters: map<string, DateValues>, r: PowerRecord)
    requires r in PowerRecords(loc, parameters, Keys(Parameter(parameters, "T2M")))
    ensures exists i :: 0 <= i < |Parameter(parameters, "T2M")| && ConvertedFrom(r.date, Parameter(parameters, "T2M")[i].0)
    ensures r.source == "POWER" && r.location == loc.name
    ensures r.temperature != MissingValue && r.precipitation != MissingValue
    ensures r.humidity != MissingValue && r.windSpeed != MissingValue
  {
    var dates := Keys(Parameter(parameters, "T2M"));
    CollectMembers(dates, PowerRowOf(loc, parameters), r);
    var i :| 0 <= i < |dates| && PowerRowOf(loc, parameters)(dates[i]) == Some(r);
    FormattedIsConverted(dates[i]);
  }

  /** `date` is a valid YYYYMMDD date and `formatted` its extended form. */
  predicate ConvertedFrom(formatted: string, date: string)
  {
    Text.ParseBasicDate(date).Some? && formatted == AppUtils.ConvertDateFormat(date, "YYYY-MM-DD")
  }

  /** `strftime` of a parsed YYYYMMDD date is the date text with dashes added. */
  lemma FormattedIsConverted(date: string)
    requires Text.ParseBasicDate(date).Some?
    ensures Text.FormatExtendedDate(Text.ParseBasicDate(date).value) == AppUtils.ConvertDateFormat(date, "YYYY-MM-DD")
  {
    AppUtils.BasicToExtendedSameDate(date);
    Text.ExtendedDateCanonical(AppUtils.ConvertDateFormat(date, "YYYY-MM-DD"));
  }

  // ---------------------------------------------------------------------------
  // IMERG ASCII time series
  // ---------------------------------------------------------------------------

  const ImergProduct := "GPM_3IMERGDF_06"

  /** A daily row of the IMERG script. */
  datatype ImergRecord = ImergRecord(
    date: string, location: string, latitude: real, longitude: real,
    precipitation: real, source: string, product: string)

  /** `line.startswith('#')`. */
  predicate Comment(line: string)
  {
    line != [] && line[0] == '#'
  }

  /**
   * The row for one line: none for a comment, a blank line, fewer than two
   * whitespace tokens, or a second token that is not a number. The first
   * token is the date, verbatim; later tokens are ignored.
   */
  function ImergRecordFor(loc: Location, line: string): (r: Option<ImergRecord>)
    ensures Comment(line) || Text.Blank(line) ==> r.None?
    ensures var tokens := Text.SplitWhitespace(line);
      r.Some? <==> !Comment(line) && |tokens| >= 2 && Text.ParseFloat(tokens[1]).Some?
    ensures r.Some? ==> var tokens := Text.SplitWhitespace(line);
      && r.value.date == tokens[0] && r.value.precipitation == Text.ParseFloat(tokens[1]).value
      && r.value.location == loc.name && r.value.latitude == loc.latitude && r.value.longitude == loc.longitude
      && r.value.source == "IMERG" && r.value.product == ImergProduct
  {
    if Comment(line) || Text.Blank(line) then None
    else
      var parts := Text.SplitWhitespace(line);
      if |parts| < 2 then None
      else
        match Text.ParseFloat(parts[1])
        case None => None
        case Some(p) => Some(ImergRecord(parts[0], loc.name, loc.latitude, loc.longitude, p, "IMERG", ImergProduct))
  }

  /** The line-parsing step as a function value. */
  function ImergRowOf(loc: Location): string -> Option<ImergRecord>
  {
    (line: string) => ImergRecordFor(loc, line)
  }

  /** The rows for a list of lines, in line order. */
  function ImergRecords(loc: Location, lines: seq<string>): seq<ImergRecord>
  {
    Collect(lines, ImergRowOf(loc))
  }

  /** `line` is a data line whose first whitespace token is `date`. */
  predicate DataLineFor(line: string, date: string)
  {
    !Comment(line) && !Text.Blank(line) && |Text.SplitWhitespace(line)| >= 2 && Text.SplitWhitespace(line)[0] == date
  }

  /**
   * Every row comes from a data line (not a comment, not blank, at least two
   * tokens) whose first token is the row's date, and is labelled IMERG.
   */
  lemma ImergRecordOrigin(loc: Location, lines: seq<string>, r: ImergRecord)
    requires r in ImergRecords(loc, lines)
    ensures exists i :: 0 <= i < |lines| && DataLineFor(lines[i], r.date)
    ensures r.source == "IMERG" && r.product == ImergProduct
    ensures r.location == loc.name && r.latitude == loc.latitude && r.longitude == loc.longitude
  {
    CollectMembers(lines, ImergRowOf(loc), r);
    var i :| 0 <= i < |lines| && ImergRowOf(loc)(lines[i]) == Some(r);
    assert ImergRecordFor(loc, lines[i]) == Some(r);
  }

  /** `response.text.strip().split('\n')`. */
  function Lines(text: string): (lines: seq<string>)
    ensures |lines| >= 1
    ensures forall i :: 0 <= i < |lines| ==> '\n' !in lines[i]
  {
    Text.Split(Text.Strip(text), '\n')
  }

  /** `fetch_imerg_for_location` after its HTTP call: the line-by-line parse. */
  method ImergRecordsFromText(loc: Location, text: string) returns (records: seq<ImergRecord>)
    ensures records == ImergRecords(loc, Lines(text))
    ensures |records| <= |Lines(text)|
  {
    var lines := Lines(text);
    records := [];
    for i := 0 to |lines|
      invariant records == ImergRecords(loc, lines[..i])
    {
      CollectStep(lines, ImergRowOf(loc), i);
      var r := ImergRecordFor(loc, lines[i]);
      if r.Some? {
        records := records + [r.value];
      }
    }
    assert lines[..|lines|] == lines;
    CollectBound(lines, ImergRowOf(loc));
  }
}
