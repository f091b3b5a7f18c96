/** src/lib/arcgis.ts: the format detection of ArcGIS links and the projection of a search
    feature onto the dataset record the harvester maps. */
module ArcgisLib {
  import opened Js

  // ---------------------------------------------------------------------------
  // `new URL(url).pathname`

  /** The text after the first `c`, when `s` holds one. */
  function After(s: string, c: char): (r: Option<string>)
    ensures r.Some? ==> |r.value| < |s|
    decreases |s|
  {
    if |s| == 0 then None else if s[0] == c then Some(s[1..]) else After(s[1..], c)
  }

  predicate AsciiLetter(c: char) {
    ('a' <= c <= 'z') || ('A' <= c <= 'Z')
  }

  /** A URL scheme: a letter, then letters, digits, '+', '-' or '.'. */
  predicate ValidScheme(s: string) {
    && |s| >= 1 && AsciiLetter(s[0])
    && forall i :: 1 <= i < |s| ==> AsciiLetter(s[i]) || ('0' <= s[i] <= '9') || s[i] in "+-."
  }

  /** The path of an absolute URL: the scheme is cut at the first ':', the query and fragment are
      dropped, and an authority introduced by "//" runs to the next '/'. A URL without a scheme
      does not parse. */
  function Pathname(url: string): Option<string> {
    match After(url, ':')
    case None => None
    case Some(rest) =>
      if !ValidScheme(Split(url, ':')[0]) then None
      else
        var beforeQuery := Split(Split(rest, '#')[0], '?')[0];
        if IsPrefix("//", beforeQuery) then
          match After(beforeQuery[2..], '/')
          case None => Some("/")
          case Some(path) => Some("/" + path)
        else Some(beforeQuery)
  }

  /** A path never holds a query or a fragment. */
  lemma PathnameClean(url: string)
    ensures Pathname(url).Some? ==> '?' !in Pathname(url).value && '#' !in Pathname(url).value
  {
    match After(url, ':')
    case None =>
    case Some(rest) =>
      var h := Split(rest, '#')[0];
      var beforeQuery := Split(h, '?')[0];
      FirstPiece(rest, '#');
      FirstPiece(h, '?');
      FirstPieceKeepsOut(h, '?', '#');
      if IsPrefix("//", beforeQuery) {
        AfterKeepsOut(beforeQuery[2..], '/', '?');
        AfterKeepsOut(beforeQuery[2..], '/', '#');
      }
  }

  /** What `After` returns is a suffix of its input. */
  lemma {:induction false} AfterSuffix(s: string, c: char)
    ensures After(s, c).Some? ==> s[|s| - |After(s, c).value|..] == After(s, c).value
    decreases |s|
  {
    if |s| > 0 && s[0] != c {
      AfterSuffix(s[1..], c);
    }
  }

  /** The first piece of a split holds no character its input does not hold. */
  lemma FirstPieceKeepsOut(s: string, sep: char, d: char)
    requires d !in s
    ensures d !in Split(s, sep)[0]
  {
    FirstPiece(s, sep);
    var e := Split(s, sep)[0];
    assert forall i :: 0 <= i < |e| ==> e[i] == s[i];
  }

  /** Nor does the text after the first `c`. */
  lemma AfterKeepsOut(s: string, c: char, d: char)
    requires d !in s
    ensures After(s, c).Some? ==> d !in After(s, c).value
  {
    AfterSuffix(s, c);
    if After(s, c).Some? {
      var r := After(s, c).value;
      assert forall i :: 0 <= i < |r| ==> r[i] == s[|s| - |r| + i];
    }
  }

  // ---------------------------------------------------------------------------
  // detectFormat

  /** The extensions recognised in a URL path, lower-case. */
  const KnownExtensions: seq<string> := ["csv", "json", "geojson", "zip", "shp", "kml", "kmz", "xml"]

  /** The formats `detectFormat` can derive from a URL. */
  const KnownFormats: seq<string> := ["CSV", "JSON", "GEOJSON", "ZIP", "SHP", "KML", "KMZ", "XML"]

  const Unknown: string := "unknown"

  /** The lower-cased text after the last '.' of a path. */
  function PathExtension(path: string): string {
    ToLower(Last(Split(path, '.')))
  }

  /** `detectFormat(url, type)`: an explicit type wins; otherwise the upper-cased extension of the
      URL's path when it is one of the known ones, and "unknown" in every other case, an
      unparseable URL included. */
  function DetectFormat(url: Option<string>, typ: Option<string>): (f: string)
    ensures Truthy(typ) ==> f == typ.value
    ensures !Truthy(typ) && !Truthy(url) ==> f == Unknown
  {
    if Truthy(typ) then typ.value
    else if !Truthy(url) then Unknown
    else match Pathname(url.value)
      case None => Unknown
      case Some(path) =>
        var ext := PathExtension(path);
        if ext != "" && ext in KnownExtensions then ToUpper(ext) else Unknown
  }

  lemma KnownFormatsUpper()
    ensures |KnownFormats| == |KnownExtensions|
    ensures forall i :: 0 <= i < |KnownExtensions| ==> ToUpper(KnownExtensions[i]) == KnownFormats[i]
  {
    assert ToUpper("csv") == "CSV" && ToUpper("json") == "JSON" && ToUpper("geojson") == "GEOJSON";
    assert ToUpper("zip") == "ZIP" && ToUpper("shp") == "SHP" && ToUpper("kml") == "KML";
    assert ToUpper("kmz") == "KMZ" && ToUpper("xml") == "XML";
  }

  /** Without an explicit type, a URL's format is "unknown" exactly when the URL does not parse
      or its path does not end in a known extension; otherwise it is that extension upper-cased. */
  lemma DetectFormatFromPath(url: Option<string>, typ: Option<string>)
    requires !Truthy(typ) && Truthy(url)
    ensures var path := Pathname(url.value);
      && (path.None? ==> DetectFormat(url, typ) == Unknown)
      && (path.Some? && PathExtension(path.value) !in KnownExtensions ==> DetectFormat(url, typ) == Unknown)
      && (path.Some? && PathExtension(path.value) in KnownExtensions ==>
            DetectFormat(url, typ) == ToUpper(PathExtension(path.value)) && DetectFormat(url, typ) != Unknown)
  {
    KnownFormatsUpper();
    var path := Pathname(url.value);
    if path.Some? && PathExtension(path.value) in KnownExtensions {
      var f := DetectFormat(url, typ);
      assert f in KnownFormats;
      assert Unknown[0] == 'u';
    }
  }

  /** Without an explicit type, the format is one of the known formats or "unknown". */
  lemma DetectFormatRange(url: Option<string>, typ: Option<string>)
    requires !Truthy(typ)
    ensures DetectFormat(url, typ) == Unknown || DetectFormat(url, typ) in KnownFormats
  {
    KnownFormatsUpper();
  }

  /** A path ending in a dot and a known extension, in any ASCII case, is recognised. */
  lemma DetectKnownExtension(url: string, stem: string, ext: string)
    requires Pathname(url) == Some(stem + "." + ext)
    requires '.' !in ext && ToLower(ext) in KnownExtensions
    ensures DetectFormat(Some(url), None) == ToUpper(ToLower(ext))
    ensures DetectFormat(Some(url), None) in KnownFormats
  {
    SplitAppend(stem, ext, '.');
    SplitSingle(ext, '.');
    assert Last(Split(stem + "." + ext, '.')) == ext;
    KnownFormatsUpper();
  }

  /** An absolute URL whose path holds no dot has no format: the dots of the host do not count. */
  lemma DetectWithoutPathDot(url: string)
    requires Pathname(url).Some? && '.' !in Pathname(url).value
    requires Pathname(url).value != "" && Pathname(url).value[0] == '/'
    ensures DetectFormat(Some(url), None) == Unknown
  {
    var path := Pathname(url).value;
    SplitSingle(path, '.');
    assert PathExtension(path)[0] == '/';
  }

  // ---------------------------------------------------------------------------
  // The per-feature record of getAllArcgisDatasets

  /** A JavaScript value found where the harvester expects a list of links: a falsy value, a
      truthy value that is not an array, or an array. */
  datatype LinkList = Falsy | NotArray | Entries(entries: seq<LinkEntry>)

  /** An element of a link list: `null`/`undefined` (reading a property of it throws), or an
      object with the properties the harvester reads. */
  datatype LinkEntry =
    | NullEntry
    | Entry(href: Option<string>, url: Option<string>, link: Option<string>, title: Option<string>, name: Option<string>)

  /** `feature.properties`, reduced to what is read; `labelText` is `label`. */
  datatype Properties = Properties(
    id: Option<string>, guid: Option<string>, name: Option<string>, title: Option<string>, labelText: Option<string>,
    description: Option<string>, snippet: Option<string>, summary: Option<string>,
    keywords: Option<seq<string>>, tags: Option<seq<string>>,
    typ: Option<string>, resourceType: Option<string>, itemType: Option<string>,
    url: Option<string>, landingPage: Option<string>, serviceUrl: Option<string>, homepage: Option<string>,
    links: LinkList, distribution: LinkList, resources: LinkList, assets: LinkList)

  datatype Feature = Feature(id: Option<string>, properties: Option<Properties>)

  /** The harvester's dataset record; `raw` is the feature it came from. */
  datatype ArcgisDataset = ArcgisDataset(
    id: string, name: Option<string>, title: Option<string>, description: Option<string>,
    keywords: seq<string>, typ: Option<string>, url: Option<string>, raw: Option<Feature>, tags: Option<seq<string>>)

  const NoProperties: Properties :=
    Properties(None, None, None, None, None, None, None, None, None, None, None, None, None, None, None, None, None,
               Falsy, Falsy, Falsy, Falsy)

  /** `f.properties || {}`. */
  function PropertiesOf(f: Feature): Properties {
    if f.properties.Some? then f.properties.value else NoProperties
  }

  /** The record pushed for one feature: each field is the first truthy of its candidates. */
  function FeatureToDataset(f: Feature): (d: ArcgisDataset)
    ensures var p := PropertiesOf(f);
      && (Truthy(f.id) ==> d.id == f.id.value)
      && (!Truthy(f.id) && Truthy(p.id) ==> d.id == p.id.value)
      && (!Truthy(f.id) && !Truthy(p.id) && Truthy(p.guid) ==> d.id == p.guid.value)
      && (!Truthy(f.id) && !Truthy(p.id) && !Truthy(p.guid) && Truthy(p.name) ==> d.id == p.name.value)
      && (!Truthy(f.id) && !Truthy(p.id) && !Truthy(p.guid) && !Truthy(p.name) ==> d.id == Show(p.title))
      && d.name == p.name
      && (Truthy(p.title) ==> d.title == p.title)
      && (!Truthy(p.title) && Truthy(p.name) ==> d.title == p.name)
      && (!Truthy(p.title) && !Truthy(p.name) ==> d.title == p.labelText)
      && (p.keywords.Some? ==> d.keywords == p.keywords.value)
      && (p.keywords.None? && p.tags.Some? ==> d.keywords == p.tags.value)
      && (p.keywords.None? && p.tags.None? ==> d.keywords == [])
      && (Truthy(p.url) ==> d.url == p.url)
      && (!Truthy(p.url) && Truthy(p.landingPage) ==> d.url == p.landingPage)
      && (!Truthy(p.url) && !Truthy(p.landingPage) && Truthy(p.serviceUrl) ==> d.url == p.serviceUrl)
      && (!Truthy(p.url) && !Truthy(p.landingPage) && !Truthy(p.serviceUrl) ==> d.url == p.homepage)
      && d.raw == Some(f) && d.tags == p.tags
  {
    var p := PropertiesOf(f);
    ArcgisDataset(
      Show(Or(Or(Or(Or(f.id, p.id), p.guid), p.name), p.title)),
      p.name,
      Or(Or(p.title, p.name), p.labelText),
      Or(Or(p.description, p.snippet), p.summary),
      if p.keywords.Some? then p.keywords.value else if p.tags.Some? then p.tags.value else [],
      Or(Or(p.typ, p.resourceType), p.itemType),
      Or(Or(Or(p.url, p.landingPage), p.serviceUrl), p.homepage),
      Some(f),
      p.tags)
  }

  /** The description and the type fall back in the same way. */
  lemma FeatureFallbacks(f: Feature)
    ensures var p := PropertiesOf(f); var d := FeatureToDataset(f);
      && (Truthy(p.description) ==> d.description == p.description)
      && (!Truthy(p.description) && Truthy(p.snippet) ==> d.description == p.snippet)
      && (!Truthy(p.description) && !Truthy(p.snippet) ==> d.description == p.summary)
      && (Truthy(p.typ) ==> d.typ == p.typ)
      && (!Truthy(p.typ) && Truthy(p.resourceType) ==> d.typ == p.resourceType)
      && (!Truthy(p.typ) && !Truthy(p.resourceType) ==> d.typ == p.itemType)
  {
  }

  /** The records of a page of features, in order. */
  function FeaturesToDatasets(fs: seq<Feature>): (ds: seq<ArcgisDataset>)
    ensures |ds| == |fs|
    ensures forall i :: 0 <= i < |fs| ==> ds[i] == FeatureToDataset(fs[i]) && ds[i].raw == Some(fs[i])
  {
    seq(|fs|, i requires 0 <= i < |fs| => FeatureToDataset(fs[i]))
  }
}
