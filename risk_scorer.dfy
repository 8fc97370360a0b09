/**
 * The rule-based flood risk score of the `/api/flood-risk` endpoint
 * (backend/app/routes/flood_risk.py and its twin in backend/app.py).
 *
 * The endpoint reads the POWER daily maps for precipitation (PRECTOTCORR),
 * temperature (T2M) and relative humidity (RH2M), optionally counts IMERG
 * granules, and adds integer points from three threshold ladders plus a
 * satellite bonus.  Values are Dafny reals; a JSON `null` is `None`.
 */
module RiskScorer {
  import opened Wrappers
  import Series

  datatype Level = LOW | MEDIUM | HIGH

  /** One explanatory factor; the message's number is carried as a value, not formatted. */
  datatype Factor =
    | VeryHighDailyRainfall(maxMm: real)
    | HighDailyRainfall(maxMm: real)
    | ModerateRainfall(maxMm: real)
    | HighAverageRainfall(avgMmPerDay: real)
    | ModerateAverageRainfall(avgMmPerDay: real)
    | HighHumidity(avgPercent: real)
    | ElevatedHumidity(avgPercent: real)
    | ImergDataAvailable

  /** Errors the endpoint answers with. */
  datatype HttpError = Unauthorized | InternalServerError

  datatype ClimateSummary = ClimateSummary(
    avgPrecipitationMm: real,
    maxPrecipitationMm: real,
    avgTemperatureC: Option<real>,
    avgHumidityPercent: real)

  datatype RiskAssessment = RiskAssessment(
    latitude: real, longitude: real,
    startDate: string, endDate: string,
    level: Level, score: int, factors: seq<Factor>,
    climate: ClimateSummary,
    imergGranulesFound: nat, powerDataDays: nat)

  /** The three POWER maps the scorer reads, as their values in map order. */
  datatype PowerParams = PowerParams(
    precipitation: seq<Option<real>>,
    temperature: seq<Option<real>>,
    humidity: seq<Option<real>>)

  // ---------------------------------------------------------------------------
  // Value filtering and aggregates
  // ---------------------------------------------------------------------------

  /** The precipitation values that count: present and non-negative, in order. */
  function ValidPrecipitation(vs: seq<Option<real>>): (r: seq<real>)
    ensures |r| <= |vs|
    ensures forall i :: 0 <= i < |r| ==> r[i] >= 0.0
    ensures forall i :: 0 <= i < |vs| && vs[i].Some? && vs[i].value >= 0.0 ==> vs[i].value in r
    ensures forall x :: x in r ==> Some(x) in vs
  {
    if vs == [] then []
    else
      var rest := ValidPrecipitation(vs[1..]);
      if vs[0].Some? && vs[0].value >= 0.0 then [vs[0].value] + rest else rest
  }

  /** The values that are present (`v is not None`), in order. */
  function PresentValues(vs: seq<Option<real>>): (r: seq<real>)
    ensures |r| <= |vs|
    ensures forall x :: x in r <==> Some(x) in vs
  {
    if vs == [] then []
    else
      var rest := PresentValues(vs[1..]);
      assert vs == [vs[0]] + vs[1..];
      if vs[0].Some? then [vs[0].value] + rest else rest
  }

  /** Filtering a concatenation filters each part and keeps them in order. */
  lemma {:induction false} ValidPrecipitationAppend(a: seq<Option<real>>, b: seq<Option<real>>)
    ensures ValidPrecipitation(a + b) == ValidPrecipitation(a) + ValidPrecipitation(b)
  {
    if a == [] {
      assert a + b == b;
    } else {
      assert (a + b)[1..] == a[1..] + b;
      ValidPrecipitationAppend(a[1..], b);
    }
  }

  /** One reading is kept exactly when it is present and non-negative. */
  lemma ValidPrecipitationSingle(v: Option<real>)
    ensures ValidPrecipitation([v]) == if v.Some? && v.value >= 0.0 then [v.value] else []
  {
    assert [v][1..] == [];
  }

  /** Keeping the present values of a concatenation keeps each part's, in order. */
  lemma {:induction false} PresentValuesAppend(a: seq<Option<real>>, b: seq<Option<real>>)
    ensures PresentValues(a + b) == PresentValues(a) + PresentValues(b)
  {
    if a == [] {
      assert a + b == b;
    } else {
      assert (a + b)[1..] == a[1..] + b;
      PresentValuesAppend(a[1..], b);
    }
  }

  /** One reading is kept exactly when it is present. */
  lemma PresentValuesSingle(v: Option<real>)
    ensures PresentValues([v]) == if v.Some? then [v.value] else []
  {
    assert [v][1..] == [];
  }

  /** Python `max(s)`, and 0 for an empty list as the endpoint defaults it. */
  function MaxOr0(s: seq<real>): (m: real)
    ensures forall i :: 0 <= i < |s| ==> s[i] <= m
    ensures s != [] ==> m in s
    ensures s == [] ==> m == 0.0
  {
    if s == [] then 0.0 else Series.Max(s)
  }

  /** The mean, and 0 for an empty list; it never exceeds the maximum. */
  function MeanOr0(s: seq<real>): (m: real)
    ensures s != [] ==> m * (|s| as real) == Series.Sum(s)
    ensures m <= MaxOr0(s)
    ensures s == [] ==> m == 0.0
    ensures (forall i :: 0 <= i < |s| ==> s[i] >= 0.0) ==> m >= 0.0
  {
    if s == [] then 0.0 else Series.Mean(s)
  }

  // ---------------------------------------------------------------------------
  // The score as a specification: four terms and the level thresholds
  // ---------------------------------------------------------------------------

  function MaxRainPoints(maxMm: real): int
  {
    if maxMm > 100.0 then 40 else if maxMm > 50.0 then 25 else if maxMm > 20.0 then 10 else 0
  }

  function AvgRainPoints(avgMm: real): int
  {
    if avgMm > 50.0 then 20 else if avgMm > 20.0 then 10 else 0
  }

  function HumidityPoints(avgPercent: real): int
  {
    if avgPercent > 80.0 then 15 else if avgPercent > 70.0 then 5 else 0
  }

  function SatellitePoints(granulesFound: nat): int
  {
    if granulesFound > 0 then 5 else 0
  }

  function TotalScore(maxMm: real, avgMm: real, avgHumidity: real, granulesFound: nat): int
  {
    MaxRainPoints(maxMm) + AvgRainPoints(avgMm) + HumidityPoints(avgHumidity) + SatellitePoints(granulesFound)
  }

  function LevelFor(score: int): Level
  {
    if score >= 60 then HIGH else if score >= 30 then MEDIUM else LOW
  }

  /** The points a factor stands for. */
  function FactorPoints(f: Factor): int
  {
    match f
    case VeryHighDailyRainfall(_) => 40
    case HighDailyRainfall(_) => 25
    case ModerateRainfall(_) => 10
    case HighAverageRainfall(_) => 20
    case ModerateAverageRainfall(_) => 10
    case HighHumidity(_) => 15
    case ElevatedHumidity(_) => 5
    case ImergDataAvailable => 5
  }

  /** Which rule a factor comes from, in evaluation order. */
  function FactorRule(f: Factor): int
  {
    match f
    case VeryHighDailyRainfall(_) => 0
    case HighDailyRainfall(_) => 0
    case ModerateRainfall(_) => 0
    case HighAverageRainfall(_) => 1
    case ModerateAverageRainfall(_) => 1
    case HighHumidity(_) => 2
    case ElevatedHumidity(_) => 2
    case ImergDataAvailable => 3
  }

  function SumPoints(fs: seq<Factor>): int
  {
    if fs == [] then 0 else FactorPoints(fs[0]) + SumPoints(fs[1..])
  }

  lemma {:induction false} SumPointsConcat(a: seq<Factor>, b: seq<Factor>)
    ensures SumPoints(a + b) == SumPoints(a) + SumPoints(b)
  {
    if a == [] {
      assert a + b == b;
    } else {
      assert (a + b)[1..] == a[1..] + b;
      SumPointsConcat(a[1..], b);
    }
  }

  // ---------------------------------------------------------------------------
  // The scorer itself, step by step as the endpoint runs it
  // ---------------------------------------------------------------------------

  /** What one rule contributes: at most one factor, of that rule, worth `points`. */
  predicate RulePiece(p: seq<Factor>, rule: int, points: int)
  {
    && |p| <= 1
    && SumPoints(p) == points
    && (forall i :: 0 <= i < |p| ==> FactorRule(p[i]) == rule && FactorPoints(p[i]) > 0)
  }

  /** A one-factor list is worth that factor's points. */
  lemma SumPointsSingle(f: Factor)
    ensures SumPoints([f]) == FactorPoints(f)
  {
    assert [f][1..] == [];
  }

  /** The factor each rule contributes: none, or the one for the band that fired. */
  function MaxRainFactors(maxMm: real): (p: seq<Factor>)
    ensures RulePiece(p, 0, MaxRainPoints(maxMm))
  {
    if maxMm > 100.0 then SumPointsSingle(VeryHighDailyRainfall(maxMm)); [VeryHighDailyRainfall(maxMm)]
    else if maxMm > 50.0 then SumPointsSingle(HighDailyRainfall(maxMm)); [HighDailyRainfall(maxMm)]
    else if maxMm > 20.0 then SumPointsSingle(ModerateRainfall(maxMm)); [ModerateRainfall(maxMm)]
    else []
  }

  function AvgRainFactors(avgMm: real): (p: seq<Factor>)
    ensures RulePiece(p, 1, AvgRainPoints(avgMm))
  {
    if avgMm > 50.0 then SumPointsSingle(HighAverageRainfall(avgMm)); [HighAverageRainfall(avgMm)]
    else if avgMm > 20.0 then SumPointsSingle(ModerateAverageRainfall(avgMm)); [ModerateAverageRainfall(avgMm)]
    else []
  }

  function HumidityFactors(avgPercent: real): (p: seq<Factor>)
    ensures RulePiece(p, 2, HumidityPoints(avgPercent))
  {
    if avgPercent > 80.0 then SumPointsSingle(HighHumidity(avgPercent)); [HighHumidity(avgPercent)]
    else if avgPercent > 70.0 then SumPointsSingle(ElevatedHumidity(avgPercent)); [ElevatedHumidity(avgPercent)]
    else []
  }

  function SatelliteFactors(granulesFound: nat): (p: seq<Factor>)
    ensures RulePiece(p, 3, SatellitePoints(granulesFound))
    ensures ImergDataAvailable in p <==> granulesFound > 0
  {
    if granulesFound > 0 then SumPointsSingle(ImergDataAvailable); [ImergDataAvailable] else []
  }

  /** `risk_factors`, rule by rule in the order the endpoint checks them. */
  function FactorsFor(maxMm: real, avgMm: real, avgHumidity: real, granulesFound: nat): seq<Factor>
  {
    MaxRainFactors(maxMm) + AvgRainFactors(avgMm) + HumidityFactors(avgHumidity) + SatelliteFactors(granulesFound)
  }

  /** Factors appear in strictly increasing rule order: at most one per rule. */
  predicate RulesIncreasing(fs: seq<Factor>)
  {
    forall i, j :: 0 <= i < j < |fs| ==> FactorRule(fs[i]) < FactorRule(fs[j])
  }

  /** A prefix of the factor list built from rules below `rule`, worth `points`. */
  predicate Prefix(fs: seq<Factor>, rule: int, points: int)
  {
    && SumPoints(fs) == points
    && RulesIncreasing(fs)
    && (forall i :: 0 <= i < |fs| ==> FactorRule(fs[i]) < rule && FactorPoints(fs[i]) > 0)
  }

  lemma {:induction false} AppendPiece(fs: seq<Factor>, next: seq<Factor>, rule: int, points: int, nextPoints: int)
    requires Prefix(fs, rule, points)
    requires RulePiece(next, rule, nextPoints)
    ensures Prefix(fs + next, rule + 1, points + nextPoints)
  {
    SumPointsConcat(fs, next);
  }

  lemma CombinePieces(m: seq<Factor>, a: seq<Factor>, h: seq<Factor>, g: seq<Factor>,
                      pm: int, pa: int, ph: int, pg: int)
    requires RulePiece(m, 0, pm) && RulePiece(a, 1, pa) && RulePiece(h, 2, ph) && RulePiece(g, 3, pg)
    ensures Prefix(m + a + h + g, 4, pm + pa + ph + pg)
    ensures ImergDataAvailable in m + a + h + g <==> ImergDataAvailable in g
  {
    var p0: seq<Factor> := [];
    assert Prefix(p0, 0, 0);
    AppendPiece(p0, m, 0, 0, pm);
    assert p0 + m == m;
    var p1 := m + a;
    AppendPiece(m, a, 1, pm, pa);
    var p2 := p1 + h;
    AppendPiece(p1, h, 2, pm + pa, ph);
    assert ImergDataAvailable !in p2 by {
      assert forall i :: 0 <= i < |p2| ==> FactorRule(p2[i]) < 3;
    }
    AppendPiece(p2, g, 3, pm + pa + ph, pg);
  }

  /**
   * The factors explain the score: their points add up to it, each carries
   * positive points, they appear in rule order with at most one per rule, and the
   * satellite factor is listed exactly when granules were found.
   */
  lemma FactorsExplainScore(maxMm: real, avgMm: real, avgHumidity: real, granulesFound: nat)
    ensures var fs := FactorsFor(maxMm, avgMm, avgHumidity, granulesFound);
      && SumPoints(fs) == TotalScore(maxMm, avgMm, avgHumidity, granulesFound)
      && (forall i :: 0 <= i < |fs| ==> FactorPoints(fs[i]) > 0)
      && RulesIncreasing(fs)
      && (ImergDataAvailable in fs <==> granulesFound > 0)
  {
    CombinePieces(MaxRainFactors(maxMm), AvgRainFactors(avgMm), HumidityFactors(avgHumidity), SatelliteFactors(granulesFound),
                  MaxRainPoints(maxMm), AvgRainPoints(avgMm), HumidityPoints(avgHumidity), SatellitePoints(granulesFound));
  }

  /** The score is at most 40 + 20 + 15 + 5. */
  lemma ScoreRange(maxMm: real, avgMm: real, avgHumidity: real, granulesFound: nat)
    ensures 0 <= TotalScore(maxMm, avgMm, avgHumidity, granulesFound) <= 80
  {
  }

  /**
   * Accumulates `risk_score` and `risk_factors` over the four rules, then maps the
   * score to a level.
   */
  method ScoreRisk(maxMm: real, avgMm: real, avgHumidity: real, granulesFound: nat)
    returns (score: int, level: Level, factors: seq<Factor>)
    ensures score == TotalScore(maxMm, avgMm, avgHumidity, granulesFound)
    ensures factors == FactorsFor(maxMm, avgMm, avgHumidity, granulesFound)
    ensures level == HIGH <==> score >= 60
    ensures level == MEDIUM <==> 30 <= score < 60
    ensures level == LOW <==> score < 30
  {
    score := 0;
    factors := [];

    if maxMm > 100.0 {
      score := score + 40;
      factors := factors + [VeryHighDailyRainfall(maxMm)];
    } else if maxMm > 50.0 {
      score := score + 25;
      factors := factors + [HighDailyRainfall(maxMm)];
    } else if maxMm > 20.0 {
      score := score + 10;
      factors := factors + [ModerateRainfall(maxMm)];
    }
    assert factors == MaxRainFactors(maxMm);

    if avgMm > 50.0 {
      score := score + 20;
      factors := factors + [HighAverageRainfall(avgMm)];
    } else if avgMm > 20.0 {
      score := score + 10;
      factors := factors + [ModerateAverageRainfall(avgMm)];
    }
    assert factors == MaxRainFactors(maxMm) + AvgRainFactors(avgMm);

    if avgHumidity > 80.0 {
      score := score + 15;
      factors := factors + [HighHumidity(avgHumidity)];
    } else if avgHumidity > 70.0 {
      score := score + 5;
      factors := factors + [ElevatedHumidity(avgHumidity)];
    }
    assert factors == MaxRainFactors(maxMm) + AvgRainFactors(avgMm) + HumidityFactors(avgHumidity);

    if granulesFound > 0 {
      score := score + 5;
      factors := factors + [ImergDataAvailable];
    }

    if score >= 60 {
      level := HIGH;
    } else if score >= 30 {
      level := MEDIUM;
    } else {
      level := LOW;
    }
  }

  // ---------------------------------------------------------------------------
  // Properties of the score
  // ---------------------------------------------------------------------------

  /**
   * Because the average of the valid values never exceeds their maximum, the
   * average-rain term is never larger than the max-rain term, so the
   * precipitation part of the score is at most 60 and in {0,10,20,25,35,45,40,50,60}.
   */
  lemma AvgTermAtMostMaxTerm(precipitation: seq<Option<real>>)
    ensures var vs := ValidPrecipitation(precipitation);
      AvgRainPoints(MeanOr0(vs)) <= MaxRainPoints(MaxOr0(vs))
  {
  }

  /** More rain, more humidity or more granules never lower the score. */
  lemma ScoreMonotone(max1: real, avg1: real, hum1: real, g1: nat, max2: real, avg2: real, hum2: real, g2: nat)
    requires max1 <= max2 && avg1 <= avg2 && hum1 <= hum2 && g1 <= g2
    ensures TotalScore(max1, avg1, hum1, g1) <= TotalScore(max2, avg2, hum2, g2)
    ensures LevelRank(LevelFor(TotalScore(max1, avg1, hum1, g1))) <= LevelRank(LevelFor(TotalScore(max2, avg2, hum2, g2)))
  {
  }

  function LevelRank(l: Level): int
  {
    match l
    case LOW => 0
    case MEDIUM => 1
    case HIGH => 2
  }

  // ---------------------------------------------------------------------------
  // The endpoint: IMERG availability, climate summary and the response
  // ---------------------------------------------------------------------------

  /** Python truthiness of an optional string: present and non-empty. */
  predicate Truthy(s: Option<string>)
  {
    s.Some? && s.value != []
  }

  /**
   * Granules the modular route counts.  IMERG is optional there: it is queried only
   * when an Authorization header or `EARTHDATA_JWT` is set, and any failure of that
   * query (`imergFeed == None`) leaves the list empty.
   */
  function RouteImergGranules(authorization: Option<string>, jwt: Option<string>, imergFeed: Option<nat>): (n: nat)
    ensures !Truthy(authorization) && !Truthy(jwt) ==> n == 0
    ensures imergFeed.None? ==> n == 0
    ensures (Truthy(authorization) || Truthy(jwt)) && imergFeed.Some? ==> n == imergFeed.value
  {
    if Truthy(authorization) || Truthy(jwt) then
      match imergFeed
      case Some(count) => count
      case None => 0
    else 0
  }

  /**
   * `avg_temperature_c`: `None` when the T2M map is empty; otherwise the mean of
   * the present values, which divides by zero (a server error) when none is present.
   */
  function AvgTemperature(temperature: seq<Option<real>>): (r: Result<Option<real>, HttpError>)
    ensures temperature == [] ==> r == Ok(None)
    ensures temperature != [] && PresentValues(temperature) == [] ==> r == Err(InternalServerError)
    ensures r.Ok? && r.value.Some? ==> PresentValues(temperature) != []
  {
    if temperature == [] then Ok(None)
    else
      var present := PresentValues(temperature);
      if present == [] then Err(InternalServerError)
      else Ok(Some(Series.Mean(present)))
  }

  /**
   * The response the scorer gives for the fetched POWER maps and a granule count:
   * the level, score and factors of the four rules over the precipitation and
   * humidity aggregates, beside the climate summary; a server error exactly when
   * the temperature average fails.
   */
  function Assessment(latitude: real, longitude: real, startDate: string, endDate: string,
                      power: PowerParams, granulesFound: nat): (r: Result<RiskAssessment, HttpError>)
    ensures r.Err? <==> AvgTemperature(power.temperature).Err?
    ensures r.Err? ==> r.error == InternalServerError
    ensures r.Ok? ==>
      && SumPoints(r.value.factors) == r.value.score
      && 0 <= r.value.score <= 80
      && (r.value.level == HIGH <==> r.value.score >= 60)
      && (r.value.level == LOW <==> r.value.score < 30)
      && (ImergDataAvailable in r.value.factors <==> granulesFound > 0)
      && r.value.climate.maxPrecipitationMm == MaxOr0(ValidPrecipitation(power.precipitation))
      && r.value.climate.avgPrecipitationMm <= r.value.climate.maxPrecipitationMm
      && r.value.powerDataDays == |ValidPrecipitation(power.precipitation)|
  {
    var precip := ValidPrecipitation(power.precipitation);
    var maxPrecip, avgPrecip := MaxOr0(precip), MeanOr0(precip);
    var avgHumidity := MeanOr0(PresentValues(power.humidity));
    var score := TotalScore(maxPrecip, avgPrecip, avgHumidity, granulesFound);
    match AvgTemperature(power.temperature)
    case Err(e) => Err(e)
    case Ok(avgTemp) =>
      FactorsExplainScore(maxPrecip, avgPrecip, avgHumidity, granulesFound);
      ScoreRange(maxPrecip, avgPrecip, avgHumidity, granulesFound);
      Ok(RiskAssessment(latitude, longitude, startDate, endDate, LevelFor(score), score,
                        FactorsFor(maxPrecip, avgPrecip, avgHumidity, granulesFound),
                        ClimateSummary(avgPrecip, maxPrecip, avgTemp, avgHumidity),
                        granulesFound, |precip|))
  }

  /** Assembles the response from the fetched POWER maps and the granule count. */
  method BuildAssessment(latitude: real, longitude: real, startDate: string, endDate: string,
                         power: PowerParams, granulesFound: nat)
    returns (r: Result<RiskAssessment, HttpError>)
    ensures r == Assessment(latitude, longitude, startDate, endDate, power, granulesFound)
    ensures AvgTemperature(power.temperature).Err? <==> r.Err?
    ensures r.Err? ==> r.error == InternalServerError
    ensures r.Ok? ==>
      var precip := ValidPrecipitation(power.precipitation);
      var humid := PresentValues(power.humidity);
      && r.value.latitude == latitude && r.value.longitude == longitude
      && r.value.startDate == startDate && r.value.endDate == endDate
      && r.value.score == TotalScore(MaxOr0(precip), MeanOr0(precip), MeanOr0(humid), granulesFound)
      && r.value.level == LevelFor(r.value.score)
      && 0 <= r.value.score <= 80
      && r.value.factors == FactorsFor(MaxOr0(precip), MeanOr0(precip), MeanOr0(humid), granulesFound)
      && SumPoints(r.value.factors) == r.value.score
      && r.value.climate.avgPrecipitationMm == MeanOr0(precip)
      && r.value.climate.maxPrecipitationMm == MaxOr0(precip)
      && r.value.climate.avgHumidityPercent == MeanOr0(humid)
      && r.value.climate.avgTemperatureC == AvgTemperature(power.temperature).value
      && r.value.imergGranulesFound == granulesFound
      && r.value.powerDataDays == |precip|
      && (ImergDataAvailable in r.value.factors <==> granulesFound > 0)
  {
    var precip := ValidPrecipitation(power.precipitation);
    var avgPrecip := MeanOr0(precip);
    var maxPrecip := MaxOr0(precip);
    var avgHumidity := MeanOr0(PresentValues(power.humidity));
    var score, level, factors := ScoreRisk(maxPrecip, avgPrecip, avgHumidity, granulesFound);
    FactorsExplainScore(maxPrecip, avgPrecip, avgHumidity, granulesFound);
    ScoreRange(maxPrecip, avgPrecip, avgHumidity, granulesFound);
    match AvgTemperature(power.temperature)
    case Err(e) =>
      r := Err(e);
    case Ok(avgTemp) =>
      r := Ok(RiskAssessment(latitude, longitude, startDate, endDate, level, score, factors,
                             ClimateSummary(avgPrecip, maxPrecip, avgTemp, avgHumidity),
                             granulesFound, |precip|));
  }

  /**
   * backend/app/routes/flood_risk.py: IMERG is optional; a failed POWER request
   * (`power == None`) propagates as a server error.
   */
  method AssessFloodRisk(latitude: real, longitude: real, startDate: string, endDate: string,
                         authorization: Option<string>, jwt: Option<string>,
                         imergFeed: Option<nat>, power: Option<PowerParams>)
    returns (r: Result<RiskAssessment, HttpError>)
    ensures power.None? ==> r == Err(InternalServerError)
    ensures r.Err? ==> r.error == InternalServerError
    ensures power.Some? && power.value.temperature == [] ==> r.Ok?
    ensures power.Some? ==> (r.Err? <==> AvgTemperature(power.value.temperature).Err?)
    ensures power.Some? ==>
      r == Assessment(latitude, longitude, startDate, endDate, power.value,
                      RouteImergGranules(authorization, jwt, imergFeed))
    ensures power.Some? && r.Ok? ==>
      var precip := ValidPrecipitation(power.value.precipitation);
      var humid := MeanOr0(PresentValues(power.value.humidity));
      var granules := RouteImergGranules(authorization, jwt, imergFeed);
      && r.value.score == TotalScore(MaxOr0(precip), MeanOr0(precip), humid, granules)
      && r.value.level == LevelFor(r.value.score)
      && r.value.factors == FactorsFor(MaxOr0(precip), MeanOr0(precip), humid, granules)
    ensures r.Ok? ==> r.value.imergGranulesFound == RouteImergGranules(authorization, jwt, imergFeed)
    ensures r.Ok? && !Truthy(authorization) && !Truthy(jwt) ==>
      r.value.imergGranulesFound == 0 && ImergDataAvailable !in r.value.factors
  {
    if power.None? {
      return Err(InternalServerError);
    }
    var granules := RouteImergGranules(authorization, jwt, imergFeed);
    r := BuildAssessment(latitude, longitude, startDate, endDate, power.value, granules);
  }

  /**
   * backend/app.py: the same scorer, but with neither an Authorization header nor
   * `EARTHDATA_JWT` the request is refused with 401 before anything is fetched, and
   * a failed IMERG query is an error rather than an empty list.
   */
  method AssessFloodRiskStrict(latitude: real, longitude: real, startDate: string, endDate: string,
                               authorization: Option<string>, jwt: Option<string>,
                               imergFeed: Option<nat>, power: Option<PowerParams>)
    returns (r: Result<RiskAssessment, HttpError>)
    ensures !Truthy(authorization) && !Truthy(jwt) ==> r == Err(Unauthorized)
    ensures (Truthy(authorization) || Truthy(jwt)) && (imergFeed.None? || power.None?) ==> r == Err(InternalServerError)
    ensures r.Ok? ==> imergFeed.Some? && r.value.imergGranulesFound == imergFeed.value
    ensures (Truthy(authorization) || Truthy(jwt)) && imergFeed.Some? && power.Some? ==>
      && (r.Err? <==> AvgTemperature(power.value.temperature).Err?)
      && r == Assessment(latitude, longitude, startDate, endDate, power.value, imergFeed.value)
    ensures r.Ok? ==>
      var precip := ValidPrecipitation(power.value.precipitation);
      var humid := MeanOr0(PresentValues(power.value.humidity));
      && r.value.score == TotalScore(MaxOr0(precip), MeanOr0(precip), humid, imergFeed.value)
      && r.value.level == LevelFor(r.value.score)
      && r.value.factors == FactorsFor(MaxOr0(precip), MeanOr0(precip), humid, imergFeed.value)
  {
    if !Truthy(authorization) && !Truthy(jwt) {
      return Err(Unauthorized);
    }
    if imergFeed.None? || power.None? {
      return Err(InternalServerError);
    }
    r := BuildAssessment(latitude, longitude, startDate, endDate, power.value, imergFeed.value);
  }
}
