/**
 * The geographic helpers of frontend/src/utils/geoUtils.js and the
 * unclamped bounding box of frontend/src/services/imergAPI.js. The longitude
 * half-extent `radius / (111 cos lat)` involves a cosine, so it is an input
 * (`lonDelta`) here.
 */
module GeoUtils {
  /** A JavaScript argument: a number, or anything else. */
  datatype JsValue = Number(x: real) | NotNumber

  /** `isValidCoordinates`: both numbers, latitude in [-90, 90] and longitude in [-180, 180], bounds included. */
  predicate IsValidCoordinates(lat: JsValue, lon: JsValue)
  {
    lat.Number? && lon.Number? && -90.0 <= lat.x <= 90.0 && -180.0 <= lon.x <= 180.0
  }

  /** The bounds are inclusive: every corner of the valid range is valid, and one step past it is not. */
  lemma ValidCoordinatesBounds(lat: real, lon: real)
    ensures IsValidCoordinates(Number(lat), Number(lon)) <==> -90.0 <= lat <= 90.0 && -180.0 <= lon <= 180.0
    ensures IsValidCoordinates(Number(90.0), Number(180.0)) && IsValidCoordinates(Number(-90.0), Number(-180.0))
    ensures !IsValidCoordinates(NotNumber, Number(lon)) && !IsValidCoordinates(Number(lat), NotNumber)
  {
  }

  datatype Bbox = Bbox(north: real, south: real, east: real, west: real)

  /** `isPointInBbox`: inclusive on all four edges. */
  predicate IsPointInBbox(lat: real, lon: real, box: Bbox)
  {
    box.south <= lat <= box.north && box.west <= lon <= box.east
  }

  /** A point on any edge of a box is inside it. */
  lemma EdgesInside(box: Bbox, lat: real, lon: real)
    requires box.south <= box.north && box.west <= box.east
    requires box.south <= lat <= box.north && box.west <= lon <= box.east
    ensures IsPointInBbox(box.north, lon, box) && IsPointInBbox(box.south, lon, box)
    ensures IsPointInBbox(lat, box.east, box) && IsPointInBbox(lat, box.west, box)
  {
  }

  /** `getBboxCenter`: the midpoint (lat, lon). */
  function GetBboxCenter(box: Bbox): (c: (real, real))
    ensures c.0 - box.south == box.north - c.0
    ensures c.1 - box.west == box.east - c.1
  {
    ((box.north + box.south) / 2.0, (box.east + box.west) / 2.0)
  }

  /** The centre of a box with south <= north and west <= east lies inside it. */
  lemma CenterInside(box: Bbox)
    requires box.south <= box.north && box.west <= box.east
    ensures IsPointInBbox(GetBboxCenter(box).0, GetBboxCenter(box).1, box)
  {
  }

  /** The radius `createBoundingBox` uses when none is given, in kilometres. */
  const DefaultRadiusKm: real := 50.0

  /** Kilometres per degree of latitude in the rough conversion. */
  const KmPerDegree: real := 111.0

  function Min(a: real, b: real): (m: real)
    ensures m <= a && m <= b && (m == a || m == b)
  {
    if a <= b then a else b
  }

  function Max(a: real, b: real): (m: real)
    ensures m >= a && m >= b && (m == a || m == b)
  {
    if a >= b then a else b
  }

  /**
   * `createBoundingBox` of geoUtils.js: `radius / 111` degrees of latitude
   * and `lonDelta` degrees of longitude either side, clamped to the globe.
   */
  function CreateBoundingBox(lat: real, lon: real, radiusKm: real, lonDelta: real): (box: Bbox)
    ensures box.north <= 90.0 && box.south >= -90.0 && box.east <= 180.0 && box.west >= -180.0
    ensures lat + radiusKm / KmPerDegree <= 90.0 ==> box.north == lat + radiusKm / KmPerDegree
    ensures lat - radiusKm / KmPerDegree >= -90.0 ==> box.south == lat - radiusKm / KmPerDegree
    ensures lon + lonDelta <= 180.0 ==> box.east == lon + lonDelta
    ensures lon - lonDelta >= -180.0 ==> box.west == lon - lonDelta
    ensures lat + radiusKm / KmPerDegree > 90.0 ==> box.north == 90.0
    ensures lat - radiusKm / KmPerDegree < -90.0 ==> box.south == -90.0
    ensures lon + lonDelta > 180.0 ==> box.east == 180.0
    ensures lon - lonDelta < -180.0 ==> box.west == -180.0
  {
    var latDelta := radiusKm / KmPerDegree;
    Bbox(Min(lat + latDelta, 90.0), Max(lat - latDelta, -90.0), Min(lon + lonDelta, 180.0), Max(lon - lonDelta, -180.0))
  }

  /** A valid point lies inside its own clamped box for any non-negative radius and longitude extent. */
  lemma PointInOwnBox(lat: real, lon: real, radiusKm: real, lonDelta: real)
    requires IsValidCoordinates(Number(lat), Number(lon))
    requires radiusKm >= 0.0 && lonDelta >= 0.0
    ensures IsPointInBbox(lat, lon, CreateBoundingBox(lat, lon, radiusKm, lonDelta))
  {
    assert radiusKm / KmPerDegree >= 0.0;
  }

  /** With the default 50 km radius, a box away from the poles spans 100 km of latitude. */
  lemma DefaultRadiusExtent(lat: real, lon: real, lonDelta: real)
    requires -89.0 <= lat <= 89.0
    ensures var box := CreateBoundingBox(lat, lon, DefaultRadiusKm, lonDelta);
      (box.north - box.south) * KmPerDegree == 2.0 * DefaultRadiusKm
  {
    assert DefaultRadiusKm / KmPerDegree < 1.0;
  }

  /** `imergAPI.createBoundingBox`: the same extents, without clamping. */
  function CreateImergBoundingBox(lat: real, lon: real, radiusKm: real, lonDelta: real): (box: Bbox)
    ensures box.north - lat == lat - box.south == radiusKm / KmPerDegree
    ensures box.east - lon == lon - box.west == lonDelta
  {
    var latDelta := radiusKm / KmPerDegree;
    Bbox(lat + latDelta, lat - latDelta, lon + lonDelta, lon - lonDelta)
  }

  /** The unclamped box is centred on its point. */
  lemma ImergBoxCentred(lat: real, lon: real, radiusKm: real, lonDelta: real)
    ensures GetBboxCenter(CreateImergBoundingBox(lat, lon, radiusKm, lonDelta)) == (lat, lon)
  {
    var box := CreateImergBoundingBox(lat, lon, radiusKm, lonDelta);
    assert (box.north + box.south) / 2.0 == lat;
    assert (box.east + box.west) / 2.0 == lon;
  }

  /** The two helpers agree exactly when the unclamped box stays on the globe. */
  lemma ClampOnlyAtTheEdges(lat: real, lon: real, radiusKm: real, lonDelta: real)
    ensures CreateBoundingBox(lat, lon, radiusKm, lonDelta) == CreateImergBoundingBox(lat, lon, radiusKm, lonDelta)
      <==> (var b := CreateImergBoundingBox(lat, lon, radiusKm, lonDelta);
            b.north <= 90.0 && b.south >= -90.0 && b.east <= 180.0 && b.west >= -180.0)
  {
  }

  /** The unclamped box leaves the globe for a point near a pole: there is no clamping. */
  lemma ImergBoxUnclamped()
    ensures CreateImergBoundingBox(89.9, 0.0, DefaultRadiusKm, 1.0).north > 90.0
  {
  }

  // ---------------------------------------------------------------------------
  // formatCoordinates
  // ---------------------------------------------------------------------------

  function Abs(x: real): (a: real)
    ensures a >= 0.0 && (a == x || a == -x)
  {
    if x >= 0.0 then x else -x
  }

  /** The latitude letter: N for lat >= 0, else S. */
  function LatHemisphere(lat: real): (c: char)
    ensures c == 'N' <==> lat >= 0.0
    ensures c == 'S' <==> lat < 0.0
  {
    if lat >= 0.0 then 'N' else 'S'
  }

  /** The longitude letter: E for lon >= 0, else W. */
  function LonHemisphere(lon: real): (c: char)
    ensures c == 'E' <==> lon >= 0.0
    ensures c == 'W' <==> lon < 0.0
  {
    if lon >= 0.0 then 'E' else 'W'
  }

  /** One coordinate: its absolute value written by `fixed` (`toFixed(precision)`), a degree sign and its letter. */
  function Part(x: real, letter: char, fixed: real -> string): (s: string)
    ensures |s| >= 2 && s[|s| - 1] == letter && s[|s| - 2] == '°'
  {
    fixed(Abs(x)) + ['°', letter]
  }

  /** `formatCoordinates`: "|lat|°N/S, |lon|°E/W". */
  function FormatCoordinates(lat: real, lon: real, fixed: real -> string): string
  {
    Part(lat, LatHemisphere(lat), fixed) + ", " + Part(lon, LonHemisphere(lon), fixed)
  }

  /**
   * Mirroring a point across the equator changes only the latitude letter:
   * the same digits are printed, with S in place of N.
   */
  lemma FormatMirrorsLatitude(lat: real, lon: real, fixed: real -> string)
    requires lat > 0.0
    ensures var north := FormatCoordinates(lat, lon, fixed);
      var south := FormatCoordinates(-lat, lon, fixed);
      var k := |fixed(lat)| + 1;
      && |north| == |south| && north[k] == 'N' && south[k] == 'S'
      && north[..k] == south[..k] && north[k + 1..] == south[k + 1..]
  {
    assert Abs(-lat) == lat;
  }
}
