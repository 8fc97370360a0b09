/**
 * The climate endpoint of backend/app/routes/power.py (duplicated in
 * backend/app.py): NASA POWER answers with one date-keyed map per parameter,
 * and the endpoint pivots it into one record per date, dates in ascending
 * order, each record holding every parameter's value for that date or null.
 */
module PowerRoute {
  import opened Wrappers
  import Text
  import Sorting

  /** One entry of `properties.parameter`: a parameter name and its date-keyed values. */
  datatype Parameter = Parameter(name: string, values: map<string, real>)

  /** Every date any parameter has a value for: the `dates.update(...)` loop's result. */
  function DatesOf(params: seq<Parameter>): (dates: set<string>)
    ensures forall d :: d in dates <==> exists j :: 0 <= j < |params| && d in params[j].values
  {
    if params == [] then {}
    else
      var n := |params| - 1;
      assert forall j :: 0 <= j < n ==> params[..n][j] == params[j];
      DatesOf(params[..n]) + params[n].values.Keys
  }

  /** Each date strictly before the next, in code-point order. */
  predicate StrictlyAscending(s: seq<string>)
  {
    forall i :: 0 <= i < |s| - 1 ==> Text.StrLt(s[i], s[i + 1])
  }

  lemma {:induction false} AscendingOrdered(s: seq<string>, i: nat, j: nat)
    requires StrictlyAscending(s)
    requires i < j < |s|
    ensures Text.StrLt(s[i], s[j])
    decreases j - i
  {
    if i + 1 < j {
      AscendingOrdered(s, i + 1, j);
      Text.StrLtTransitive(s[i], s[i + 1], s[j]);
    }
  }

  /**
   * `sorted(dates)` is determined by the set: two strictly ascending lists
   * with the same elements are the same list.
   */
  lemma {:induction false} AscendingUnique(a: seq<string>, b: seq<string>)
    requires StrictlyAscending(a) && StrictlyAscending(b)
    requires forall x :: x in a <==> x in b
    ensures a == b
  {
    if a != [] { assert a[0] in b; }
    if b != [] { assert b[0] in a; }
    if a != [] && b != [] {
      if a[0] != b[0] {
        var k :| 0 <= k < |b| && b[k] == a[0];
        var m :| 0 <= m < |a| && a[m] == b[0];
        AscendingOrdered(b, 0, k);
        AscendingOrdered(a, 0, m);
        Text.StrLtAsymmetric(a[0], b[0]);
        assert false;
      }
      forall x
        ensures x in a[1..] <==> x in b[1..]
      {
        assert a == [a[0]] + a[1..] && b == [b[0]] + b[1..];
        if x in a[1..] {
          var i :| 1 <= i < |a| && a[i] == x;
          AscendingOrdered(a, 0, i);
          Text.StrLtIrreflexive(x);
          assert x in b && x != b[0];
        }
        if x in b[1..] {
          var i :| 1 <= i < |b| && b[i] == x;
          AscendingOrdered(b, 0, i);
          Text.StrLtIrreflexive(x);
          assert x in a && x != a[0];
        }
      }
      assert StrictlyAscending(a[1..]) by {
        forall i | 0 <= i < |a| - 2 ensures Text.StrLt(a[1..][i], a[1..][i + 1]) {
          assert a[1..][i] == a[i + 1] && a[1..][i + 1] == a[i + 2];
        }
      }
      assert StrictlyAscending(b[1..]) by {
        forall i | 0 <= i < |b| - 2 ensures Text.StrLt(b[1..][i], b[1..][i + 1]) {
          assert b[1..][i] == b[i + 1] && b[1..][i + 1] == b[i + 2];
        }
      }
      AscendingUnique(a[1..], b[1..]);
      assert a == [a[0]] + a[1..] && b == [b[0]] + b[1..];
    }
  }

  lemma StrLeIsTotal()
    ensures Sorting.Total((x: string, y: string) => Text.StrLe(x, y))
  {
    forall x: string, y: string
      ensures Text.StrLe(x, y) || Text.StrLe(y, x)
    {
      Text.StrLeTotal(x, y);
    }
  }

  /** A sorted list in which no value occurs twice ascends strictly. */
  lemma SortedDistinctAscending(s: seq<string>)
    requires Sorting.SortedBy(s, (x: string, y: string) => Text.StrLe(x, y))
    requires forall x :: multiset(s)[x] <= 1
    ensures StrictlyAscending(s)
  {
    forall i | 0 <= i < |s| - 1
      ensures Text.StrLt(s[i], s[i + 1])
    {
      AdjacentEqualCountsTwice(s, i);
    }
  }

  lemma AdjacentEqualCountsTwice(s: seq<string>, i: nat)
    requires i + 1 < |s|
    ensures s[i] == s[i + 1] ==> multiset(s)[s[i]] >= 2
  {
    assert s == s[..i] + [s[i], s[i + 1]] + s[i + 2..];
  }

  /** `sorted(dates)`: the dates as a strictly ascending list. */
  method SortedDates(dates: set<string>) returns (list: seq<string>)
    ensures StrictlyAscending(list)
    ensures forall d :: d in list <==> d in dates
  {
    var pending := dates;
    var unsorted: seq<string> := [];
    while pending != {}
      invariant pending <= dates
      invariant multiset(unsorted) == multiset(dates - pending)
      decreases |pending|
    {
      var d :| d in pending;
      assert dates - (pending - {d}) == (dates - pending) + {d};
      unsorted := unsorted + [d];
      pending := pending - {d};
    }
    assert dates - pending == dates;
    StrLeIsTotal();
    list := Sorting.SortBy(unsorted, (x: string, y: string) => Text.StrLe(x, y));
    assert multiset(list) == multiset(dates);
    SortedDistinctAscending(list);
    forall d
      ensures d in list <==> d in dates
    {
      assert d in list <==> d in multiset(list);
    }
  }

  /** One element of `daily_data`: the date, then each parameter's value in parameter order. */
  datatype DayRecord = DayRecord(date: string, values: seq<(string, Option<real>)>)

  /** `param_values.get(date)`. */
  function Get(values: map<string, real>, date: string): (v: Option<real>)
    ensures v.Some? <==> date in values
    ensures v.Some? ==> v.value == values[date]
  {
    if date in values then Some(values[date]) else None
  }

  /**
   * The record for one date: for every parameter, its name beside its value
   * on that date, null when it has none.
   */
  function RecordFor(params: seq<Parameter>, date: string): (r: DayRecord)
    ensures r.date == date && |r.values| == |params|
    ensures forall j :: 0 <= j < |params| ==> r.values[j] == (params[j].name, Get(params[j].values, date))
  {
    DayRecord(date, seq(|params|, j requires 0 <= j < |params| => (params[j].name, Get(params[j].values, date))))
  }

  function RecordDates(daily: seq<DayRecord>): (dates: seq<string>)
    ensures |dates| == |daily|
    ensures forall i :: 0 <= i < |daily| ==> dates[i] == daily[i].date
  {
    seq(|daily|, i requires 0 <= i < |daily| => daily[i].date)
  }

  /** The union of all parameters' dates. */
  method UnionOfDates(params: seq<Parameter>) returns (dates: set<string>)
    ensures dates == DatesOf(params)
  {
    dates := {};
    for j := 0 to |params|
      invariant dates == DatesOf(params[..j])
    {
      assert params[..j + 1][..j] == params[..j];
      dates := dates + params[j].values.Keys;
    }
    assert params[..|params|] == params;
  }

  /** The inner loop: each parameter's value on one date, in parameter order. */
  method RecordOn(params: seq<Parameter>, date: string) returns (r: DayRecord)
    ensures r == RecordFor(params, date)
  {
    var values: seq<(string, Option<real>)> := [];
    for j := 0 to |params|
      invariant |values| == j
      invariant forall m :: 0 <= m < j ==> values[m] == (params[m].name, Get(params[m].values, date))
    {
      values := values + [(params[j].name, Get(params[j].values, date))];
    }
    r := DayRecord(date, values);
  }

  /** The outer loop: one record per date, in the order given. */
  method RecordsOn(params: seq<Parameter>, ordered: seq<string>) returns (daily: seq<DayRecord>)
    ensures RecordDates(daily) == ordered
    ensures forall k :: 0 <= k < |daily| ==> daily[k] == RecordFor(params, daily[k].date)
  {
    daily := [];
    for i := 0 to |ordered|
      invariant RecordDates(daily) == ordered[..i]
      invariant forall k :: 0 <= k < |daily| ==> daily[k] == RecordFor(params, daily[k].date)
    {
      var record := RecordOn(params, ordered[i]);
      assert ordered[..i + 1] == ordered[..i] + [record.date];
      daily := daily + [record];
    }
    assert ordered[..|ordered|] == ordered;
  }

  /**
   * The pivot: the union of all parameters' dates, in ascending order, one
   * record per date.
   */
  method PivotByDate(params: seq<Parameter>) returns (daily: seq<DayRecord>)
    ensures StrictlyAscending(RecordDates(daily))
    ensures forall d :: d in RecordDates(daily) <==> d in DatesOf(params)
    ensures forall i :: 0 <= i < |daily| ==> daily[i] == RecordFor(params, daily[i].date)
  {
    var dates := UnionOfDates(params);
    var ordered := SortedDates(dates);
    daily := RecordsOn(params, ordered);
  }

  /** The pivot is the only ascending one-record-per-date listing of the union. */
  lemma PivotDeterminedByDates(params: seq<Parameter>, a: seq<DayRecord>, b: seq<DayRecord>)
    requires StrictlyAscending(RecordDates(a)) && StrictlyAscending(RecordDates(b))
    requires forall d :: d in RecordDates(a) <==> d in DatesOf(params)
    requires forall d :: d in RecordDates(b) <==> d in DatesOf(params)
    requires forall i :: 0 <= i < |a| ==> a[i] == RecordFor(params, a[i].date)
    requires forall i :: 0 <= i < |b| ==> b[i] == RecordFor(params, b[i].date)
    ensures a == b
  {
    AscendingUnique(RecordDates(a), RecordDates(b));
    assert forall i :: 0 <= i < |a| ==> a[i] == RecordFor(params, RecordDates(a)[i]);
  }

  // ---------------------------------------------------------------------------
  // The endpoint
  // ---------------------------------------------------------------------------

  datatype ClimateRequest = ClimateRequest(
    startDate: string, endDate: string, latitude: real, longitude: real, community: string)

  /** POWER's description of each parameter (its units and long name, as key/value text). */
  type ParametersInfo = map<string, map<string, string>>

  /**
   * What the endpoint reads from POWER's answer: `properties.parameter`, absent
   * when either key is missing, the top-level `parameters` object, and
   * `header.api_version`.
   */
  datatype PowerPayload = PowerPayload(
    parameter: Option<seq<Parameter>>,
    parametersInfo: Option<ParametersInfo>,
    apiVersion: Option<string>)

  datatype ClimateResponse = ClimateResponse(
    latitude: real, longitude: real,
    start: string, end: string,
    parametersInfo: ParametersInfo,
    dailyData: seq<DayRecord>,
    source: string, community: string, version: string)

  /**
   * `fetch_power_data` after the HTTP call: 500 when the parameter map is
   * missing, otherwise the request echoed beside the pivoted records.
   */
  method FetchPowerData(req: ClimateRequest, payload: PowerPayload) returns (r: Result<ClimateResponse, int>)
    ensures r.Err? <==> payload.parameter.None?
    ensures r.Err? ==> r.error == 500
    ensures r.Ok? ==> var resp := r.value;
      && resp.latitude == req.latitude && resp.longitude == req.longitude
      && resp.start == req.startDate && resp.end == req.endDate
      && resp.source == "NASA POWER API" && resp.community == req.community
      && resp.parametersInfo == payload.parametersInfo.GetOr(map[])
      && resp.version == payload.apiVersion.GetOr("unknown")
      && StrictlyAscending(RecordDates(resp.dailyData))
      && (forall d :: d in RecordDates(resp.dailyData) <==> d in DatesOf(payload.parameter.value))
      && (forall i :: 0 <= i < |resp.dailyData| ==>
            resp.dailyData[i] == RecordFor(payload.parameter.value, resp.dailyData[i].date))
  {
    if payload.parameter.None? {
      return Err(500);
    }
    var daily := PivotByDate(payload.parameter.value);
    r := Ok(ClimateResponse(req.latitude, req.longitude, req.startDate, req.endDate,
                            payload.parametersInfo.GetOr(map[]), daily,
                            "NASA POWER API", req.community, payload.apiVersion.GetOr("unknown")));
  }
}
