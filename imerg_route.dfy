/**
 * The IMERG endpoints of backend/app/routes/imerg.py (duplicated in
 * backend/app.py) around their HTTP calls: the Authorization fallback, the
 * choice of a download link in the first CMR granule, the temporary file's
 * suffix, and the projection of CMR entries into the metadata answer.
 */
module ImergRoute {
  import opened Wrappers
  import Text

  // ---------------------------------------------------------------------------
  // Authorization
  // ---------------------------------------------------------------------------

  /** Python truthiness of an optional string: present and non-empty. */
  predicate Truthy(s: Option<string>)
  {
    s.Some? && s.value != []
  }

  /**
   * The header sent upstream: the caller's Authorization header when it is
   * non-empty, else "Bearer " + the configured JWT, else 401.
   */
  function ResolveAuthorization(header: Option<string>, jwt: Option<string>): (r: Result<string, int>)
    ensures Truthy(header) ==> r == Ok(header.value)
    ensures !Truthy(header) && Truthy(jwt) ==> r == Ok("Bearer " + jwt.value)
    ensures r.Err? <==> !Truthy(header) && !Truthy(jwt)
    ensures r.Err? ==> r.error == 401
  {
    if Truthy(header) then Ok(header.value)
    else if Truthy(jwt) then Ok("Bearer " + jwt.value)
    else Err(401)
  }

  /** Whatever is sent upstream is never empty. */
  lemma AuthorizationNonEmpty(header: Option<string>, jwt: Option<string>)
    requires ResolveAuthorization(header, jwt).Ok?
    ensures ResolveAuthorization(header, jwt).value != []
  {
  }

  // ---------------------------------------------------------------------------
  // Download link
  // ---------------------------------------------------------------------------

  /** A CMR link; `rel` and `type` read as "" when absent. */
  datatype Link = Link(href: Option<string>, rel: string, mediaType: string)

  predicate HasHref(l: Link) { Truthy(l.href) }

  /** The media types that mark a data file. */
  predicate DataMediaType(t: string)
  {
    t == "application/x-hdf" || t == "application/x-netcdf" || t == "application/octet-stream"
  }

  /** A link with an href whose rel mentions "data" or whose type is a data type. */
  predicate Preferred(l: Link)
  {
    HasHref(l) && (Text.Contains(l.rel, "data") || DataMediaType(l.mediaType))
  }

  /** The index of the first link satisfying `p`. */
  function FirstWhere(links: seq<Link>, p: Link -> bool): (r: Option<nat>)
    ensures r.Some? ==> r.value < |links| && p(links[r.value])
    ensures r.Some? ==> forall j :: 0 <= j < r.value ==> !p(links[j])
    ensures r.None? ==> forall j :: 0 <= j < |links| ==> !p(links[j])
  {
    if links == [] then None
    else if p(links[0]) then Some(0)
    else
      match FirstWhere(links[1..], p)
      case None => None
      case Some(i) => Some(i + 1)
  }

  /**
   * The URL to download: the first preferred link's href, else the first
   * href at all, else none.
   */
  function DownloadUrl(links: seq<Link>): (url: Option<string>)
    ensures url.Some? ==> url.value != []
  {
    match FirstWhere(links, Preferred)
    case Some(i) => links[i].href
    case None =>
      match FirstWhere(links, HasHref)
      case Some(i) => links[i].href
      case None => None
  }

  /** There is a URL exactly when some link has a non-empty href. */
  lemma DownloadUrlExists(links: seq<Link>)
    ensures DownloadUrl(links).Some? <==> exists j :: 0 <= j < |links| && HasHref(links[j])
  {
    if exists j :: 0 <= j < |links| && HasHref(links[j]) {
      var j :| 0 <= j < |links| && HasHref(links[j]);
      assert !Preferred(links[j]) ==> FirstWhere(links, HasHref).Some?;
    }
  }

  /** A preferred link, when there is one, always wins over earlier plain links. */
  lemma DownloadUrlPrefersData(links: seq<Link>, j: nat)
    requires j < |links| && Preferred(links[j])
    ensures exists i :: 0 <= i <= j && Preferred(links[i]) && DownloadUrl(links) == links[i].href
  {
    var i := FirstWhere(links, Preferred).value;
    assert i <= j;
  }

  /** The two scans over the links, each stopping at its first match. */
  method SelectDownloadUrl(links: seq<Link>) returns (url: Option<string>)
    ensures url == DownloadUrl(links)
  {
    url := None;
    var i := 0;
    while i < |links|
      invariant 0 <= i <= |links|
      invariant forall j :: 0 <= j < i ==> !Preferred(links[j])
    {
      if Preferred(links[i]) {
        assert FirstWhere(links, Preferred) == Some(i) by { FirstWhereAt(links, Preferred, i); }
        return links[i].href;
      }
      i := i + 1;
    }
    assert FirstWhere(links, Preferred).None?;
    i := 0;
    while i < |links|
      invariant 0 <= i <= |links|
      invariant forall j :: 0 <= j < i ==> !HasHref(links[j])
    {
      if HasHref(links[i]) {
        assert FirstWhere(links, HasHref) == Some(i) by { FirstWhereAt(links, HasHref, i); }
        return links[i].href;
      }
      i := i + 1;
    }
    assert FirstWhere(links, HasHref).None?;
  }

  /** The first match is the one whose predecessors all fail. */
  lemma FirstWhereAt(links: seq<Link>, p: Link -> bool, i: nat)
    requires i < |links| && p(links[i])
    requires forall j :: 0 <= j < i ==> !p(links[j])
    ensures FirstWhere(links, p) == Some(i)
  {
    var r := FirstWhere(links, p);
    assert r.Some?;
  }

  // ---------------------------------------------------------------------------
  // Temporary file suffix
  // ---------------------------------------------------------------------------

  /**
   * `os.path.splitext(p)[1]` on POSIX: from the last '.' of the final
   * component, provided the component has a character other than '.' before it.
   */
  function SplitExt(p: string): (ext: string)
    ensures ext == [] || (ext[0] == '.' && |ext| <= |p| && p[|p| - |ext|..] == ext && '.' !in ext[1..])
  {
    match Text.LastIndexOf(p, '.')
    case None => []
    case Some(dot) =>
      var start := match Text.LastIndexOf(p, '/') case None => 0 case Some(sep) => sep + 1;
      if start <= dot && exists k :: start <= k < dot && p[k] != '.' then p[dot..] else []
  }

  /** The extension never reaches back past the last '/'. */
  lemma SplitExtInFinalComponent(p: string)
    ensures '/' !in SplitExt(p)
  {
    var ext := SplitExt(p);
    if ext != [] {
      var dot := Text.LastIndexOf(p, '.').value;
      match Text.LastIndexOf(p, '/')
      case None =>
      case Some(sep) =>
        assert ext == p[sep + 1..][dot - sep - 1..];
    }
  }

  /**
   * `d` is where `posixpath.splitext` cuts: a '.' with no '.' or '/' after it,
   * and some character other than '.' between the last '/' and it.
   */
  ghost predicate ExtensionDot(p: string, d: int)
  {
    0 <= d < |p| && p[d] == '.'
    && (forall j :: d < j < |p| ==> p[j] != '.' && p[j] != '/')
    && exists k :: 0 <= k < d && p[k] != '.' && p[k] != '/' && forall j :: k < j < d ==> p[j] != '/'
  }

  /** No `c` after position `r` means no `c` at any later index. */
  lemma NoneAfter(s: string, c: char, r: nat)
    requires r < |s| && c !in s[r + 1..]
    ensures forall j :: r < j < |s| ==> s[j] != c
  {
    forall j | r < j < |s|
      ensures s[j] != c
    {
      assert s[r + 1..][j - r - 1] == s[j];
    }
  }

  /** The extension is non-empty exactly when there is a cut point, and then it is the tail from there. */
  lemma SplitExtSpec(p: string)
    ensures SplitExt(p) != [] <==> exists d :: ExtensionDot(p, d)
    ensures forall d :: ExtensionDot(p, d) ==> SplitExt(p) == p[d..]
  {
    match Text.LastIndexOf(p, '.')
    case None =>
      forall d | 0 <= d < |p|
        ensures p[d] != '.'
      {
        assert p[d] in p;
      }
    case Some(dot) =>
      OnlyLastDotCuts(p, dot);
      var start := match Text.LastIndexOf(p, '/') case None => 0 case Some(sep) => sep + 1;
      CutCondition(p, dot, start);
  }

  /** Only the last '.' can be the cut point. */
  lemma OnlyLastDotCuts(p: string, dot: nat)
    requires Text.LastIndexOf(p, '.') == Some(dot)
    ensures forall d :: ExtensionDot(p, d) ==> d == dot
  {
    NoneAfter(p, '.', dot);
    forall d | 0 <= d < dot
      ensures !ExtensionDot(p, d)
    {
      assert p[dot] == '.';
    }
  }

  /** The last '.' is the cut point exactly when the body of `SplitExt` takes the tail. */
  lemma CutCondition(p: string, dot: nat, start: nat)
    requires Text.LastIndexOf(p, '.') == Some(dot)
    requires start == match Text.LastIndexOf(p, '/') case None => 0 case Some(sep) => sep + 1
    ensures ExtensionDot(p, dot) <==> start <= dot && exists k :: start <= k < dot && p[k] != '.'
  {
    NoSlashFromStart(p, start);
    if start <= dot && exists k :: start <= k < dot && p[k] != '.' {
      NoneAfter(p, '.', dot);
      var k :| start <= k < dot && p[k] != '.';
      assert ExtensionDot(p, dot);
    }
    if ExtensionDot(p, dot) {
      CutWitnessAfterSlash(p, dot, start);
    }
  }

  /** Nothing from `start` on is a '/'. */
  lemma NoSlashFromStart(p: string, start: nat)
    requires start == match Text.LastIndexOf(p, '/') case None => 0 case Some(sep) => sep + 1
    ensures forall j :: start <= j < |p| ==> p[j] != '/'
  {
    match Text.LastIndexOf(p, '/')
    case None =>
      forall j | start <= j < |p|
        ensures p[j] != '/'
      {
        assert p[j] in p;
      }
    case Some(sep) =>
      NoneAfter(p, '/', sep);
  }

  /** A cut point's witness character lies after the last '/'. */
  lemma CutWitnessAfterSlash(p: string, dot: nat, start: nat)
    requires ExtensionDot(p, dot)
    requires start == match Text.LastIndexOf(p, '/') case None => 0 case Some(sep) => sep + 1
    ensures start <= dot && exists k :: start <= k < dot && p[k] != '.'
  {
    var k :| 0 <= k < dot && p[k] != '.' && p[k] != '/' && forall j :: k < j < dot ==> p[j] != '/';
    match Text.LastIndexOf(p, '/')
    case None =>
    case Some(sep) =>
      assert p[sep] == '/';
    assert start <= k < dot;
  }

  /** A '.' right after a '/' never starts an extension. */
  lemma NoCutAfterSlash(p: string, d: nat)
    requires 1 <= d < |p| && p[d - 1] == '/'
    ensures !ExtensionDot(p, d)
  {
  }

  /** A file name with an extension after the last '/': "a/b.HDF5" gives ".HDF5". */
  lemma SplitExtGranuleFile(dir: string, base: string, ext: string)
    requires base != [] && '.' !in base && '/' !in base
    requires '.' !in ext && '/' !in ext
    ensures SplitExt(dir + "/" + base + "." + ext) == "." + ext
  {
    var p := dir + "/" + base + "." + ext;
    var k, dot := |dir| + 1, |dir| + 1 + |base|;
    assert ExtensionDot(p, dot) by {
      assert p[dot] == '.';
      assert p[k] == base[0];
      forall j | k < j < dot
        ensures p[j] != '/'
      {
        assert p[j] == base[j - k];
      }
      forall j | dot < j < |p|
        ensures p[j] != '.' && p[j] != '/'
      {
        assert p[j] == ext[j - dot - 1];
      }
    }
    assert p[dot..] == "." + ext by {
      assert p == (dir + "/" + base) + ("." + ext);
    }
    SplitExtSpec(p);
  }

  /** A '.' in a directory name is not an extension: "a.b/c" gives "". */
  lemma SplitExtDotInDirectory(dir: string, name: string)
    requires '.' !in name && '/' !in name
    ensures SplitExt(dir + "/" + name) == []
  {
    var p := dir + "/" + name;
    var sep := |dir|;
    forall d | 0 <= d < |p|
      ensures !ExtensionDot(p, d)
    {
      if d < sep {
        assert p[sep] == '/';
      } else if d > sep {
        assert p[d] == name[d - sep - 1];
      }
    }
    SplitExtSpec(p);
  }

  /** A leading-dot name has no extension: "/x/.hidden" gives "". */
  lemma SplitExtHiddenFile(dir: string, name: string)
    requires '.' !in name && '/' !in name
    ensures SplitExt(dir + "/." + name) == []
  {
    var p := dir + "/." + name;
    var dot := |dir| + 1;
    forall d | 0 <= d < |p|
      ensures !ExtensionDot(p, d)
    {
      if d < dot {
        assert p[dot] == '.';
      } else if d == dot {
        NoCutAfterSlash(p, d);
      } else {
        assert p[d] == name[d - dot - 1];
      }
    }
    SplitExtSpec(p);
  }

  /** `os.path.splitext(download_url)[1] or ".h5"`. */
  function TempSuffix(url: string): (suffix: string)
    ensures suffix != [] && suffix[0] == '.'
    ensures SplitExt(url) != [] ==> suffix == SplitExt(url)
    ensures SplitExt(url) == [] ==> suffix == ".h5"
  {
    var ext := SplitExt(url);
    if ext != [] then ext else ".h5"
  }

  // ---------------------------------------------------------------------------
  // The endpoints after their HTTP calls
  // ---------------------------------------------------------------------------

  /** A CMR feed entry; absent keys read as `None`. */
  datatype Entry = Entry(
    id: Option<string>,
    title: Option<string>,
    timeStart: Option<string>,
    timeEnd: Option<string>,
    granuleSize: Option<string>,
    links: Option<seq<Link>>)

  /** `results.get("feed", {})`: its entries (default []) and its hit count, if any. */
  datatype Feed = Feed(entries: seq<Entry>, hits: Option<int>)

  /** What `fetch_imerg` downloads, and how. */
  datatype DownloadPlan = DownloadPlan(granuleId: Option<string>, downloadUrl: string, authorization: string, tempSuffix: string)

  /**
   * `fetch_imerg` up to the download: 401 without credentials, 404 for an empty
   * feed or a first granule without any href; only the first granule is used.
   */
  method PlanImergDownload(header: Option<string>, jwt: Option<string>, feed: Feed) returns (r: Result<DownloadPlan, int>)
    ensures ResolveAuthorization(header, jwt).Err? ==> r == Err(401)
    ensures ResolveAuthorization(header, jwt).Ok? && feed.entries == [] ==> r == Err(404)
    ensures ResolveAuthorization(header, jwt).Ok? && feed.entries != [] ==>
      var url := DownloadUrl(feed.entries[0].links.GetOr([]));
      && (url.None? ==> r == Err(404))
      && (url.Some? ==> r == Ok(DownloadPlan(feed.entries[0].id, url.value,
                                             ResolveAuthorization(header, jwt).value, TempSuffix(url.value))))
  {
    var authorization := ResolveAuthorization(header, jwt);
    if authorization.Err? {
      return Err(401);
    }
    if feed.entries == [] {
      return Err(404);
    }
    var granule := feed.entries[0];
    var url := SelectDownloadUrl(granule.links.GetOr([]));
    if url.None? {
      return Err(404);
    }
    r := Ok(DownloadPlan(granule.id, url.value, authorization.value, TempSuffix(url.value)));
  }

  /** One element of the metadata answer's `granules`. */
  datatype GranuleSummary = GranuleSummary(
    id: Option<string>,
    title: Option<string>,
    startTime: Option<string>,
    endTime: Option<string>,
    size: Option<string>,
    links: seq<Link>)

  /** The projection of one entry; its links default to []. */
  function Summarize(e: Entry): (g: GranuleSummary)
    ensures g.id == e.id && g.title == e.title && g.size == e.granuleSize
    ensures g.startTime == e.timeStart && g.endTime == e.timeEnd
    ensures e.links.None? ==> g.links == []
  {
    GranuleSummary(e.id, e.title, e.timeStart, e.timeEnd, e.granuleSize, e.links.GetOr([]))
  }

  /** The projection loop: one summary per entry, in feed order. */
  method SummarizeEntries(entries: seq<Entry>) returns (granules: seq<GranuleSummary>)
    ensures |granules| == |entries|
    ensures forall i :: 0 <= i < |entries| ==> granules[i] == Summarize(entries[i])
  {
    granules := [];
    for i := 0 to |entries|
      invariant |granules| == i
      invariant forall j :: 0 <= j < i ==> granules[j] == Summarize(entries[j])
    {
      granules := granules + [Summarize(entries[i])];
    }
  }

  datatype MetadataAnswer = MetadataAnswer(totalHits: int, count: int, granules: seq<GranuleSummary>)

  /**
   * `imerg_metadata`: 401 without credentials; otherwise the feed's hit count
   * (the number of entries when absent), the count and the projected entries.
   */
  method ImergMetadata(header: Option<string>, jwt: Option<string>, feed: Feed) returns (r: Result<MetadataAnswer, int>)
    ensures r.Err? <==> ResolveAuthorization(header, jwt).Err?
    ensures r.Err? ==> r.error == 401
    ensures r.Ok? ==> r.value.count == |r.value.granules| == |feed.entries|
    ensures r.Ok? ==> r.value.totalHits == feed.hits.GetOr(|feed.entries|)
    ensures r.Ok? ==> forall i :: 0 <= i < |feed.entries| ==> r.value.granules[i] == Summarize(feed.entries[i])
  {
    if ResolveAuthorization(header, jwt).Err? {
      return Err(401);
    }
    var granules := SummarizeEntries(feed.entries);
    r := Ok(MetadataAnswer(feed.hits.GetOr(|feed.entries|), |granules|, granules));
  }
}
