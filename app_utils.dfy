/**
 * The string helpers of backend/app/utils.py: switching a date between the
 * basic (YYYYMMDD) and extended (YYYY-MM-DD) complete calendar-date formats of
 * ISO 8601:2004 section 4.1.2.2, and the "minLon,minLat,maxLon,maxLat"
 * bounding-box text around a point and back to its centre.
 */
module AppUtils {
  import opened Wrappers
  import Text

  /**
   * `convert_date_format`: to "YYYYMMDD" every '-' is removed; to "YYYY-MM-DD"
   * an 8-character string gets dashes after its year and month; anything else
   * is returned unchanged.
   */
  function ConvertDateFormat(s: string, target: string): (r: string)
    ensures target == "YYYYMMDD" ==> r == Text.StripDashes(s)
    ensures target == "YYYY-MM-DD" && |s| == 8 ==>
      |r| == 10 && r[4] == '-' && r[7] == '-' && r[..4] == s[..4] && r[5..7] == s[4..6] && r[8..] == s[6..]
    ensures target != "YYYYMMDD" && (target != "YYYY-MM-DD" || |s| != 8) ==> r == s
  {
    if target == "YYYYMMDD" then Text.StripDashes(s)
    else if target == "YYYY-MM-DD" && |s| == 8 then s[..4] + "-" + s[4..6] + "-" + s[6..8]
    else s
  }

  /** Dashing a basic-format date gives the extended form of the same calendar date. */
  lemma BasicToExtendedSameDate(s: string)
    requires Text.ParseBasicDate(s).Some?
    ensures Text.ParseExtendedDate(ConvertDateFormat(s, "YYYY-MM-DD")) == Text.ParseBasicDate(s)
  {
    var r := ConvertDateFormat(s, "YYYY-MM-DD");
    assert r[0..4] == s[0..4] && r[5..7] == s[4..6] && r[8..10] == s[6..8];
    assert Text.AllDigits(s[0..4]) && Text.AllDigits(s[4..6]) && Text.AllDigits(s[6..8]);
  }

  /** Removing the two dashes put between three dash-free pieces gives the pieces back, joined. */
  lemma UndashDashed(a: string, b: string, c: string)
    requires '-' !in a && '-' !in b && '-' !in c
    ensures Text.StripDashes(a + "-" + b + "-" + c) == a + b + c
  {
    var ab := a + ("-" + b);
    assert Text.StripDashes(ab) == a + b by {
      Text.StripDashesConcat(a, "-" + b);
      DashThen(b);
      Text.NoDashFixed(a);
      Text.NoDashFixed(b);
    }
    assert Text.StripDashes(ab + ("-" + c)) == (a + b) + c by {
      Text.StripDashesConcat(ab, "-" + c);
      DashThen(c);
      Text.NoDashFixed(c);
    }
    assert a + "-" + b + "-" + c == ab + ("-" + c);
  }

  lemma DashThen(s: string)
    ensures Text.StripDashes("-" + s) == Text.StripDashes(s)
  {
    var t := "-" + s;
    assert t[0] == '-' && t[1..] == s;
  }

  /** An 8-character dash-free string survives dashing and undashing. */
  lemma BasicRoundTrip(s: string)
    requires |s| == 8 && '-' !in s
    ensures ConvertDateFormat(ConvertDateFormat(s, "YYYY-MM-DD"), "YYYYMMDD") == s
  {
    var a, b, c := s[..4], s[4..6], s[6..8];
    assert ConvertDateFormat(s, "YYYY-MM-DD") == a + "-" + b + "-" + c;
    UndashDashed(a, b, c);
    assert a + b + c == s;
  }

  /** A valid extended-format date survives undashing and dashing. */
  lemma ExtendedRoundTrip(t: string)
    requires Text.ParseExtendedDate(t).Some?
    ensures ConvertDateFormat(ConvertDateFormat(t, "YYYYMMDD"), "YYYY-MM-DD") == t
  {
    var a, b, c := t[..4], t[5..7], t[8..];
    assert Text.AllDigits(a) && Text.AllDigits(b) && Text.AllDigits(c);
    assert '-' !in a && '-' !in b && '-' !in c;
    assert t == a + "-" + b + "-" + c;
    UndashDashed(a, b, c);
    var u := a + b + c;
    assert ConvertDateFormat(t, "YYYYMMDD") == u;
    assert u[..4] == a && u[4..6] == b && u[6..8] == c;
  }

  // ---------------------------------------------------------------------------
  // Bounding boxes as text
  // ---------------------------------------------------------------------------

  /** The margin `create_bbox_from_point` uses when none is given. */
  const DefaultMargin: real := 0.5

  /**
   * `calculate_bbox_center`: exactly four comma-separated numbers
   * minLon, minLat, maxLon, maxLat, and their midpoints as (lat, lon),
   * latitude first; anything else raises.
   */
  function CalculateBboxCenter(bbox: string): Option<(real, real)>
  {
    CenterWith(bbox, Text.ParseFloat)
  }

  /** The centre of the box text, each number read by `parse`. */
  function CenterWith(bbox: string, parse: string -> Option<real>): Option<(real, real)>
  {
    CenterOf(Text.ParseAll(Text.Split(bbox, ','), parse))
  }

  /** The centre of the parsed numbers, present exactly when there are four of them. */
  function CenterOf(nums: Option<seq<real>>): (r: Option<(real, real)>)
    ensures r.Some? <==> nums.Some? && |nums.value| == 4
    ensures r.Some? ==> var v := nums.value;
      && (v[1] <= v[3] ==> v[1] <= r.value.0 <= v[3])
      && (v[0] <= v[2] ==> v[0] <= r.value.1 <= v[2])
    ensures r.Some? ==> var v := nums.value;
      && r.value.0 - v[1] == v[3] - r.value.0
      && r.value.1 - v[0] == v[2] - r.value.1
  {
    match nums
    case Some(v) =>
      if |v| == 4 then Some(((v[1] + v[3]) / 2.0, (v[0] + v[2]) / 2.0)) else None
    case None => None
  }

  /** The rendering of `x` reads back as `x` under `parse` and holds no comma. */
  predicate ReadsBack(parse: string -> Option<real>, render: real -> string, x: real)
  {
    parse(render(x)) == Some(x) && ',' !in render(x)
  }

  /**
   * `create_bbox_from_point`: "lon-m,lat-m,lon+m,lat+m", each number written
   * by `render` (Python's float formatting).
   */
  function CreateBboxFromPoint(latitude: real, longitude: real, margin: real, render: real -> string): string
  {
    Text.Join(BoxFields(latitude, longitude, margin, render), ',')
  }

  /** The four numbers of the box around a point, in minLon, minLat, maxLon, maxLat order. */
  function BoxNumbers(latitude: real, longitude: real, margin: real): (v: seq<real>)
    ensures |v| == 4
  {
    [longitude - margin, latitude - margin, longitude + margin, latitude + margin]
  }

  /** The four fields of the box text. */
  function BoxFields(latitude: real, longitude: real, margin: real, render: real -> string): (fields: seq<string>)
    ensures |fields| == 4
  {
    var v := BoxNumbers(latitude, longitude, margin);
    [render(v[0]), render(v[1]), render(v[2]), render(v[3])]
  }

  /** Split at its commas, the created box gives back its four fields when no field holds a comma. */
  lemma CreatedBoxFields(latitude: real, longitude: real, margin: real, render: real -> string)
    requires forall i :: 0 <= i < 4 ==> ',' !in BoxFields(latitude, longitude, margin, render)[i]
    ensures Text.Split(CreateBboxFromPoint(latitude, longitude, margin, render), ',')
      == BoxFields(latitude, longitude, margin, render)
  {
    Text.JoinSplit(BoxFields(latitude, longitude, margin, render), ',');
  }

  /**
   * Over exact reals, the centre of the box created around a point is that
   * point, whatever the margin, as long as the numbers are written so that
   * they read back.
   */
  lemma CenterOfCreatedBox(latitude: real, longitude: real, margin: real, render: real -> string)
    requires forall i :: 0 <= i < 4 ==> ReadsBack(Text.ParseFloat, render, BoxNumbers(latitude, longitude, margin)[i])
    ensures CalculateBboxCenter(CreateBboxFromPoint(latitude, longitude, margin, render)) == Some((latitude, longitude))
  {
    CenterOfCreatedBoxWith(latitude, longitude, margin, render, Text.ParseFloat);
  }

  /** The same for any reader of numbers. */
  lemma CenterOfCreatedBoxWith(latitude: real, longitude: real, margin: real, render: real -> string,
                               parse: string -> Option<real>)
    requires forall i :: 0 <= i < 4 ==> ReadsBack(parse, render, BoxNumbers(latitude, longitude, margin)[i])
    ensures CenterWith(CreateBboxFromPoint(latitude, longitude, margin, render), parse) == Some((latitude, longitude))
  {
    var v := BoxNumbers(latitude, longitude, margin);
    var fields := BoxFields(latitude, longitude, margin, render);
    assert forall i :: 0 <= i < 4 ==> fields[i] == render(v[i]);
    CreatedBoxFields(latitude, longitude, margin, render);
    Text.ParseAllKnown(fields, parse, v);
  }
}
