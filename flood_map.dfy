/**
 * The score-to-level and level-to-colour helpers of
 * frontend/src/components/Map/FloodMap.jsx, and the choice of the point
 * around which it generates risk markers.
 */
module FloodMap {
  import opened Wrappers

  /** `getRiskLevel`: 75 and up Critical, 50 and up High, 25 and up Medium, else Low. */
  function GetRiskLevel(score: real): (level: string)
    ensures level == "Critical" <==> score >= 75.0
    ensures level == "High" <==> 50.0 <= score < 75.0
    ensures level == "Medium" <==> 25.0 <= score < 50.0
    ensures level == "Low" <==> score < 25.0
  {
    if score >= 75.0 then "Critical"
    else if score >= 50.0 then "High"
    else if score >= 25.0 then "Medium"
    else "Low"
  }

  /** The position of a level in Low < Medium < High < Critical. */
  function Rank(level: string): nat
  {
    if level == "Critical" then 3
    else if level == "High" then 2
    else if level == "Medium" then 1
    else 0
  }

  /** A higher score never gives a lower level. */
  lemma RiskLevelMonotone(a: real, b: real)
    requires a <= b
    ensures Rank(GetRiskLevel(a)) <= Rank(GetRiskLevel(b))
  {
  }

  /** The grey used for anything that is not one of the four levels. */
  const UnknownColor := "#6b7280"

  /** `getRiskColor`: red, orange, yellow, green for the four levels, grey otherwise. */
  function GetRiskColor(level: string): (color: string)
    ensures level == "Critical" ==> color == "#dc2626"
    ensures level == "High" ==> color == "#ea580c"
    ensures level == "Medium" ==> color == "#eab308"
    ensures level == "Low" ==> color == "#22c55e"
    ensures color == UnknownColor <==> level !in {"Critical", "High", "Medium", "Low"}
  {
    match level
    case "Critical" => "#dc2626"
    case "High" => "#ea580c"
    case "Medium" => "#eab308"
    case "Low" => "#22c55e"
    case _ => UnknownColor
  }

  /** The four levels get four different colours, and every score gets one of them. */
  lemma ColorsDistinguishLevels(a: real, b: real)
    ensures GetRiskColor(GetRiskLevel(a)) != UnknownColor
    ensures GetRiskColor(GetRiskLevel(a)) == GetRiskColor(GetRiskLevel(b)) <==> GetRiskLevel(a) == GetRiskLevel(b)
  {
  }

  /** A map point as the component holds it. */
  datatype Point = Point(lat: real, lng: real)

  /** JavaScript truthiness of a number: non-zero (0 is falsy). */
  predicate TruthyNumber(x: real)
  {
    x != 0.0
  }

  /**
   * The base point of `generateRiskMarkers`: the selected location, else the
   * clicked point, else the store's location when both its coordinates are
   * truthy; with none of these it only warns.
   */
  function BasePoint(selected: Option<Point>, clicked: Option<Point>, latitude: real, longitude: real): (p: Option<Point>)
    ensures selected.Some? ==> p == selected
    ensures selected.None? && clicked.Some? ==> p == clicked
    ensures selected.None? && clicked.None? ==>
      (p.Some? <==> TruthyNumber(latitude) && TruthyNumber(longitude))
    ensures selected.None? && clicked.None? && p.Some? ==> p.value == Point(latitude, longitude)
  {
    if selected.Some? then selected
    else if clicked.Some? then clicked
    else if TruthyNumber(latitude) && TruthyNumber(longitude) then Some(Point(latitude, longitude))
    else None
  }

  /** A store location on the equator or the prime meridian is never used as a base point. */
  lemma ZeroCoordinateFalls(latitude: real, longitude: real)
    ensures BasePoint(None, None, 0.0, longitude) == None
    ensures BasePoint(None, None, latitude, 0.0) == None
  {
  }
}
