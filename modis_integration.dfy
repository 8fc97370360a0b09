/**
 * The labelling step of backend/scripts/integrate_all_datasets.py: MODIS granule
 * metadata is reduced to (date, location) detections by bounding-box containment,
 * and every IMERG+POWER row is labelled either from those detections with a
 * threshold fallback, or, when there are none, by threshold heuristics alone.
 */
module ModisIntegration {
  import opened Wrappers
  import Text

  /** The CMR link relation that marks a data link. */
  const DataRel: string := "http://esipfed.org/ns/fedsearch/1.1/data#"

  /** A CMR link; `rel` and `href` may be absent. */
  datatype Link = Link(rel: Option<string>, href: Option<string>)

  /** A CMR granule entry; absent keys read as their defaults ('' or []). */
  datatype Granule = Granule(
    producerGranuleId: string,
    title: string,
    timeStart: string,
    timeEnd: string,
    boxes: seq<string>,
    links: seq<Link>)

  datatype Metadata = Metadata(
    granuleId: string,
    timeStart: string,
    timeEnd: string,
    bbox: Option<string>,
    dataLinks: seq<string>,
    title: string)

  predicate IsDataLink(l: Link) { l.rel == Some(DataRel) }

  /**
   * The hrefs of the data links, in order; `None` when a data link has no href
   * (the `link['href']` lookup raises).
   */
  function DataLinks(links: seq<Link>): (r: Option<seq<string>>)
    ensures r.Some? <==> forall i :: 0 <= i < |links| && IsDataLink(links[i]) ==> links[i].href.Some?
    ensures r.Some? ==> |r.value| <= |links|
  {
    if links == [] then Some([])
    else
      var rest := DataLinks(links[1..]);
      assert forall i :: 1 <= i < |links| ==> links[i] == links[1..][i - 1];
      if !IsDataLink(links[0]) then rest
      else if links[0].href.None? || rest.None? then None
      else Some([links[0].href.value] + rest.value)
  }

  /** The data links of a concatenation are those of each part, in order. */
  lemma {:induction false} DataLinksAppend(a: seq<Link>, b: seq<Link>)
    requires DataLinks(a).Some? && DataLinks(b).Some?
    ensures DataLinks(a + b) == Some(DataLinks(a).value + DataLinks(b).value)
  {
    var tail := DataLinks(b).value;
    if a == [] {
      assert a + b == b;
      assert [] + tail == tail;
    } else {
      var ab := a + b;
      assert ab[0] == a[0];
      assert ab[1..] == a[1..] + b;
      var rest := DataLinks(a[1..]).value;
      DataLinksAppend(a[1..], b);
      assert DataLinks(ab[1..]) == Some(rest + tail);
      if IsDataLink(a[0]) {
        var x := a[0].href.value;
        assert DataLinks(a).value == [x] + rest;
        assert [x] + (rest + tail) == ([x] + rest) + tail;
      } else {
        assert DataLinks(a).value == rest;
      }
    }
  }

  /** A single link contributes its href exactly when its rel is the data relation. */
  lemma DataLinksSingle(l: Link)
    ensures DataLinks([l]) == if !IsDataLink(l) then Some([]) else if l.href.None? then None else Some([l.href.value])
  {
    assert [l][1..] == [];
    assert DataLinks([l][1..]) == Some([]);
    if IsDataLink(l) && l.href.Some? {
      assert [l.href.value] + [] == [l.href.value];
    }
  }

  /** `parse_modis_granule_metadata`. */
  function ParseGranuleMetadata(g: Granule): (r: Option<Metadata>)
    ensures r.Some? <==> DataLinks(g.links).Some?
    ensures r.Some? ==> r.value.bbox == (if g.boxes == [] then None else Some(g.boxes[0]))
    ensures r.Some? ==> r.value.dataLinks == DataLinks(g.links).value
  {
    match DataLinks(g.links)
    case None => None
    case Some(links) =>
      Some(Metadata(g.producerGranuleId, g.timeStart, g.timeEnd,
                    if g.boxes == [] then None else Some(g.boxes[0]), links, g.title))
  }

  /**
   * The date of `time_start`: the text before the first 'T', read with
   * `strptime('%Y-%m-%d')` and written back with `strftime`.
   */
  function GranuleDate(timeStart: string): (r: Option<string>)
    ensures r.Some? <==> Text.ParseExtendedDate(Text.Before(timeStart, 'T')).Some?
    ensures r.Some? ==> r.value == Text.Before(timeStart, 'T') && Text.ParseExtendedDate(r.value).Some?
  {
    var text := Text.Before(timeStart, 'T');
    match Text.ParseExtendedDate(text)
    case None => None
    case Some(d) =>
      Text.ExtendedDateCanonical(text);
      Some(Text.FormatExtendedDate(d))
  }

  /** A MODIS bounding box as CMR writes it: "south west north east". */
  datatype Box = Box(south: real, west: real, north: real, east: real)

  /** `south, west, north, east = map(float, bbox.split())`: exactly four numbers. */
  function ParseBox(bbox: string): (r: Option<Box>)
    ensures var nums := Text.ParseAll(Text.SplitWhitespace(bbox), Text.ParseFloat);
      r.Some? <==> nums.Some? && |nums.value| == 4
    ensures var nums := Text.ParseAll(Text.SplitWhitespace(bbox), Text.ParseFloat);
      r.Some? ==> r.value == Box(nums.value[0], nums.value[1], nums.value[2], nums.value[3])
  {
    match Text.ParseAll(Text.SplitWhitespace(bbox), Text.ParseFloat)
    case Some(nums) =>
      if |nums| == 4 then Some(Box(nums[0], nums[1], nums[2], nums[3])) else None
    case None => None
  }

  /** Inclusive containment on all four edges. */
  predicate InBox(b: Box, lat: real, lon: real)
  {
    b.south <= lat <= b.north && b.west <= lon <= b.east
  }

  datatype Location = Location(name: string, lat: real, lon: real)

  /** One MODIS detection row (its `modis_flood_detected` column is always 1). */
  datatype Detection = Detection(date: string, location: string)

  /** The usable date and box of a granule, or `None` when the granule is skipped. */
  function Footprint(m: Metadata): Option<(string, Box)>
  {
    match GranuleDate(m.timeStart)
    case None => None
    case Some(date) =>
      if m.bbox.None? || m.bbox.value == "" then None
      else
        match ParseBox(m.bbox.value)
        case None => None
        case Some(b) => Some((date, b))
  }

  /** The detections one footprint gives over `locations`, in location order. */
  function Hits(date: string, b: Box, locations: seq<Location>): (r: seq<Detection>)
    ensures |r| <= |locations|
    ensures forall d :: d in r <==>
      d.date == date && exists k :: 0 <= k < |locations| && locations[k].name == d.location && InBox(b, locations[k].lat, locations[k].lon)
  {
    if locations == [] then []
    else
      var n := |locations| - 1;
      var l := locations[n];
      var prev := Hits(date, b, locations[..n]);
      assert forall k :: 0 <= k < n ==> locations[..n][k] == locations[k];
      prev + (if InBox(b, l.lat, l.lon) then [Detection(date, l.name)] else [])
  }

  function GranuleHits(g: Granule, locations: seq<Location>): Option<seq<Detection>>
  {
    match ParseGranuleMetadata(g)
    case None => None
    case Some(m) =>
      match Footprint(m)
      case None => Some([])
      case Some(f) => Some(Hits(f.0, f.1, locations))
  }

  /** The rows of every item, concatenated in order; `None` as soon as one item fails. */
  function Gather<G, D>(items: seq<G>, f: G -> Option<seq<D>>): Option<seq<D>>
  {
    if items == [] then Some([])
    else
      var n := |items| - 1;
      match Gather(items[..n], f)
      case None => None
      case Some(prev) =>
        match f(items[n])
        case None => None
        case Some(h) => Some(prev + h)
  }

  /** One more item extends the gathered rows by its own rows. */
  lemma GatherStep<G, D>(items: seq<G>, f: G -> Option<seq<D>>, i: nat)
    requires i < |items|
    ensures Gather(items[..i + 1], f) ==
      if Gather(items[..i], f).None? || f(items[i]).None? then None
      else Some(Gather(items[..i], f).value + f(items[i]).value)
  {
    assert items[..i + 1][..i] == items[..i];
  }

  /** Gathering succeeds when every item does, and then holds exactly the items' rows. */
  lemma {:induction false} GatherIff<G, D>(items: seq<G>, f: G -> Option<seq<D>>, d: D)
    ensures Gather(items, f).Some? <==> forall i :: 0 <= i < |items| ==> f(items[i]).Some?
    ensures Gather(items, f).Some? ==>
      (d in Gather(items, f).value <==> exists i :: 0 <= i < |items| && d in f(items[i]).value)
  {
    if items != [] {
      var n := |items| - 1;
      GatherStep(items, f, n);
      assert items[..n + 1] == items;
      GatherIff(items[..n], f, d);
      assert forall i :: 0 <= i < n ==> items[..n][i] == items[i];
      if Gather(items, f).Some? {
        var prev := Gather(items[..n], f).value;
        if d in prev {
          var i :| 0 <= i < n && d in f(items[..n][i]).value;
          assert items[..n][i] == items[i];
        }
      }
    }
  }

  /** The rows of each granule, for one list of locations. */
  function HitsOver(locations: seq<Location>): Granule -> Option<seq<Detection>>
  {
    g => GranuleHits(g, locations)
  }

  /** The detection rows before deduplication; `None` when a granule's metadata raises. */
  function AllHits(granules: seq<Granule>, locations: seq<Location>): Option<seq<Detection>>
  {
    Gather(granules, HitsOver(locations))
  }

  /** `drop_duplicates(subset=['date', 'location'])`: keep each row's first occurrence. */
  function Dedupe(rs: seq<Detection>): (r: seq<Detection>)
    ensures |r| <= |rs|
    ensures forall d :: d in r <==> d in rs
    ensures forall i, j :: 0 <= i < j < |r| ==> r[i] != r[j]
  {
    if rs == [] then []
    else
      var n := |rs| - 1;
      var prev := Dedupe(rs[..n]);
      assert rs == rs[..n] + [rs[n]];
      if rs[n] in prev then prev else prev + [rs[n]]
  }

  /** A granule flags a location on a date: its metadata, date and box are usable and contain it. */
  predicate Flags(g: Granule, l: Location, date: string)
  {
    match ParseGranuleMetadata(g)
    case None => false
    case Some(m) =>
      match Footprint(m)
      case None => false
      case Some(f) => f.0 == date && InBox(f.1, l.lat, l.lon)
  }

  /** Some location named as in `d` is flagged by `g` on `d`'s date. */
  predicate FlaggedBy(g: Granule, locations: seq<Location>, d: Detection)
  {
    exists k :: 0 <= k < |locations| && locations[k].name == d.location && Flags(g, locations[k], d.date)
  }

  /** The inner loop: one row per location inside the box, in location order. */
  method CollectHits(date: string, box: Box, locations: seq<Location>) returns (found: seq<Detection>)
    ensures found == Hits(date, box, locations)
  {
    found := [];
    var j := 0;
    while j < |locations|
      invariant 0 <= j <= |locations|
      invariant found == Hits(date, box, locations[..j])
    {
      assert locations[..j + 1][..j] == locations[..j];
      var loc := locations[j];
      if InBox(box, loc.lat, loc.lon) {
        found := found + [Detection(date, loc.name)];
      }
      j := j + 1;
    }
    assert locations[..j] == locations;
  }

  /**
   * `detect_floods_from_modis`: for each granule with a parsable date and a
   * four-number box, one row per location inside the box; then duplicates dropped.
   */
  method DetectFloodsFromModis(granules: seq<Granule>, locations: seq<Location>)
    returns (r: Option<seq<Detection>>)
    ensures r.Some? <==> AllHits(granules, locations).Some?
    ensures r.Some? ==> r.value == Dedupe(AllHits(granules, locations).value)
  {
    var records: seq<Detection> := [];
    var i := 0;
    while i < |granules|
      invariant 0 <= i <= |granules|
      invariant Gather(granules[..i], HitsOver(locations)) == Some(records)
    {
      GatherStep(granules, HitsOver(locations), i);
      var metadata := ParseGranuleMetadata(granules[i]);
      if metadata.None? {
        GatherIff(granules, HitsOver(locations), Detection("", ""));
        return None;
      }
      var footprint := Footprint(metadata.value);
      var found: seq<Detection> := [];
      if footprint.Some? {
        found := CollectHits(footprint.value.0, footprint.value.1, locations);
      }
      assert GranuleHits(granules[i], locations) == Some(found);
      records := records + found;
      i := i + 1;
    }
    assert granules[..i] == granules;
    r := Some(Dedupe(records));
  }

  /** A granule's own rows are the detections it flags. */
  lemma GranuleHitsIff(g: Granule, locations: seq<Location>, d: Detection)
    requires GranuleHits(g, locations).Some?
    ensures d in GranuleHits(g, locations).value <==> FlaggedBy(g, locations, d)
  {
    var m := ParseGranuleMetadata(g).value;
    if Footprint(m).Some? {
      var f := Footprint(m).value;
      if d in Hits(f.0, f.1, locations) {
        var k :| 0 <= k < |locations| && locations[k].name == d.location && InBox(f.1, locations[k].lat, locations[k].lon);
        assert Flags(g, locations[k], d.date);
      }
    }
  }

  /**
   * After deduplication a (date, location) pair is present exactly when some
   * granule flags some location of that name on that date.
   */
  lemma DetectedIff(granules: seq<Granule>, locations: seq<Location>, d: Detection)
    requires AllHits(granules, locations).Some?
    ensures d in Dedupe(AllHits(granules, locations).value) <==>
      exists i :: 0 <= i < |granules| && FlaggedBy(granules[i], locations, d)
  {
    var f := HitsOver(locations);
    GatherIff(granules, f, d);
    forall i | 0 <= i < |granules|
      ensures d in f(granules[i]).value <==> FlaggedBy(granules[i], locations, d)
    {
      GranuleHitsIff(granules[i], locations, d);
    }
  }

  // ---------------------------------------------------------------------------
  // Labels
  // ---------------------------------------------------------------------------

  /** A `(flood_occurred, label_source)` pair. */
  datatype Label = Label(floodOccurred: int, labelSource: string)

  /**
   * `enhanced_heuristic`: stricter rules when IMERG data is available, more
   * lenient POWER-only rules otherwise; the first rule that matches names the source.
   */
  function EnhancedHeuristic(precipitation: real, humidity: real, imergAvailable: real): (r: Label)
    ensures r.floodOccurred == 1 <==>
      if imergAvailable == 1.0 then
        (precipitation > 80.0 && humidity > 85.0) || precipitation > 100.0 || (precipitation > 60.0 && humidity > 90.0)
      else
        (precipitation > 90.0 && humidity > 85.0) || precipitation > 120.0
    ensures r.floodOccurred == 0 <==> r == Label(0, "no_flood")
    ensures r.floodOccurred == 1 <==> r.labelSource != "no_flood"
    ensures r.labelSource == "imerg_heuristic_high" <==>
      imergAvailable == 1.0 && precipitation > 80.0 && humidity > 85.0
    ensures r.labelSource == "imerg_heuristic_extreme" <==>
      imergAvailable == 1.0 && !(precipitation > 80.0 && humidity > 85.0) && precipitation > 100.0
    ensures r.labelSource == "imerg_heuristic_saturated" <==>
      imergAvailable == 1.0 && !(precipitation > 80.0 && humidity > 85.0) && !(precipitation > 100.0)
      && precipitation > 60.0 && humidity > 90.0
    ensures r.labelSource == "power_heuristic" <==>
      imergAvailable != 1.0 && precipitation > 90.0 && humidity > 85.0
    ensures r.labelSource == "power_heuristic_extreme" <==>
      imergAvailable != 1.0 && !(precipitation > 90.0 && humidity > 85.0) && precipitation > 120.0
  {
    if imergAvailable == 1.0 then
      if precipitation > 80.0 && humidity > 85.0 then Label(1, "imerg_heuristic_high")
      else if precipitation > 100.0 then Label(1, "imerg_heuristic_extreme")
      else if precipitation > 60.0 && humidity > 90.0 then Label(1, "imerg_heuristic_saturated")
      else Label(0, "no_flood")
    else
      if precipitation > 90.0 && humidity > 85.0 then Label(1, "power_heuristic")
      else if precipitation > 120.0 then Label(1, "power_heuristic_extreme")
      else Label(0, "no_flood")
  }

  /** A flood label by heuristic names the first rule it met, never a later one. */
  lemma HeuristicFirstRuleWins(precipitation: real, humidity: real)
    ensures precipitation > 80.0 && humidity > 85.0 ==>
      EnhancedHeuristic(precipitation, humidity, 1.0).labelSource == "imerg_heuristic_high"
    ensures precipitation > 100.0 && !(humidity > 85.0) ==>
      EnhancedHeuristic(precipitation, humidity, 1.0).labelSource == "imerg_heuristic_extreme"
    ensures precipitation > 120.0 && !(humidity > 85.0) ==>
      EnhancedHeuristic(precipitation, humidity, 0.0).labelSource == "power_heuristic_extreme"
    ensures precipitation > 120.0 && humidity > 85.0 ==>
      EnhancedHeuristic(precipitation, humidity, 0.0).labelSource == "power_heuristic"
    ensures precipitation > 100.0 && humidity > 90.0 ==>
      EnhancedHeuristic(precipitation, humidity, 1.0).labelSource == "imerg_heuristic_high"
  {
  }

  /** The set form of the detection table: `set(zip(date, location))`. */
  function ModisSet(detections: seq<Detection>): (s: set<Detection>)
    ensures forall d :: d in s <==> d in detections
  {
    set d | d in detections
  }

  /**
   * `check_flood`: a MODIS detection wins before any threshold test; otherwise the
   * IMERG thresholds decide, under a single heuristic source name.
   */
  function CheckFlood(modis: set<Detection>, date: string, location: string,
                      precipitation: real, humidity: real): (r: Label)
    ensures Detection(date, location) in modis ==> r == Label(1, "modis_satellite")
    ensures Detection(date, location) !in modis ==>
      && (r.floodOccurred == 1 <==> (precipitation > 80.0 && humidity > 85.0) || precipitation > 100.0)
      && r.labelSource != "modis_satellite"
  {
    if Detection(date, location) in modis then Label(1, "modis_satellite")
    else if precipitation > 80.0 && humidity > 85.0 then Label(1, "imerg_heuristic")
    else if precipitation > 100.0 then Label(1, "imerg_heuristic")
    else Label(0, "no_flood")
  }

  /** An IMERG+POWER row; a missing humidity or IMERG column reads as 0. */
  datatype Row = Row(date: string, location: string, precipitation: real, humidity: real, imergAvailable: real)

  /** Step 3: heuristics when there are no detections, detections with fallback otherwise. */
  function LabelRows(rows: seq<Row>, detections: seq<Detection>): (labels: seq<Label>)
    ensures |labels| == |rows|
    ensures detections == [] ==> forall i :: 0 <= i < |rows| ==>
      labels[i] == EnhancedHeuristic(rows[i].precipitation, rows[i].humidity, rows[i].imergAvailable)
    ensures detections != [] ==> forall i :: 0 <= i < |rows| ==>
      labels[i] == CheckFlood(ModisSet(detections), rows[i].date, rows[i].location, rows[i].precipitation, rows[i].humidity)
  {
    if detections == [] then
      seq(|rows|, i requires 0 <= i < |rows| =>
        EnhancedHeuristic(rows[i].precipitation, rows[i].humidity, rows[i].imergAvailable))
    else
      var modis := ModisSet(detections);
      seq(|rows|, i requires 0 <= i < |rows| =>
        CheckFlood(modis, rows[i].date, rows[i].location, rows[i].precipitation, rows[i].humidity))
  }

  /** `flood_occurred.sum()`. */
  function FloodCount(labels: seq<Label>): int
  {
    if labels == [] then 0 else labels[0].floodOccurred + FloodCount(labels[1..])
  }

  /** The number of labels with the given source. */
  function SourceCount(labels: seq<Label>, source: string): nat
  {
    if labels == [] then 0 else (if labels[0].labelSource == source then 1 else 0) + SourceCount(labels[1..], source)
  }

  /** The labels `check_flood` can produce. */
  predicate CheckFloodLabel(l: Label)
  {
    l == Label(1, "modis_satellite") || l == Label(1, "imerg_heuristic") || l == Label(0, "no_flood")
  }

  lemma {:induction false} CountsOfCheckFloodLabels(labels: seq<Label>)
    requires forall i :: 0 <= i < |labels| ==> CheckFloodLabel(labels[i])
    ensures FloodCount(labels) - SourceCount(labels, "modis_satellite") == SourceCount(labels, "imerg_heuristic")
  {
    if labels != [] {
      assert forall i :: 0 <= i < |labels[1..]| ==> labels[1..][i] == labels[i + 1];
      CountsOfCheckFloodLabels(labels[1..]);
      assert "modis_satellite"[0] != "imerg_heuristic"[0];
    }
  }

  /**
   * With detections, the reported heuristic count (total floods minus MODIS
   * rows) is the number of rows labelled by the threshold fallback.
   */
  lemma HeuristicCount(rows: seq<Row>, detections: seq<Detection>)
    requires detections != []
    ensures var labels := LabelRows(rows, detections);
      FloodCount(labels) - SourceCount(labels, "modis_satellite") == SourceCount(labels, "imerg_heuristic")
  {
    var labels := LabelRows(rows, detections);
    forall i | 0 <= i < |labels|
      ensures CheckFloodLabel(labels[i])
    {
    }
    CountsOfCheckFloodLabels(labels);
  }
}
