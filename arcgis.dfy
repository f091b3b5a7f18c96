/** src/harvesters/arcgis.ts: the mapping of an ArcGIS Hub record to a target dataset. The
    resource list starts with the record's own URL and grows, in a loop, with the links of the
    raw feature whose URL is not listed yet. */
module ArcgisHarvester {
  import opened Js
  import opened Schema
  import opened ArcgisLib

  // ---------------------------------------------------------------------------
  // The identity part of the name

  /** `.replace(/[^a-z0-9-_]+/g, "-")`: every maximal run of other characters becomes one '-'. */
  function Collapse(s: string): (r: string)
    ensures forall i :: 0 <= i < |r| ==> NameChar(r[i])
    decreases |s|
  {
    if |s| == 0 then []
    else
      var r := Collapse(s[..|s| - 1]);
      var c := s[|s| - 1];
      if NameChar(c) then r + [c]
      else if |s| >= 2 && !NameChar(s[|s| - 2]) then r
      else r + ['-']
  }

  function StripLeadingDashes(s: string): (r: string)
    ensures |r| <= |s| && r == s[|s| - |r|..]
    ensures r == [] || r[0] != '-'
    ensures forall i :: 0 <= i < |s| - |r| ==> s[i] == '-'
    decreases |s|
  {
    if |s| > 0 && s[0] == '-' then StripLeadingDashes(s[1..]) else s
  }

  function StripTrailingDashes(s: string): (r: string)
    ensures |r| <= |s| && r == s[..|r|]
    ensures r == [] || r[|r| - 1] != '-'
    ensures forall i :: |r| <= i < |s| ==> s[i] == '-'
    decreases |s|
  {
    if |s| > 0 && s[|s| - 1] == '-' then StripTrailingDashes(s[..|s| - 1]) else s
  }

  /** `.replace(/^-+|-+$/g, "")`. A string of dashes alone vanishes, at the start. */
  function StripDashes(s: string): string {
    StripTrailingDashes(StripLeadingDashes(s))
  }

  /** `(ds.name ?? ds.id).toLowerCase()`, collapsed and stripped. */
  function IdPart(ds: ArcgisDataset): string {
    StripDashes(Collapse(ToLower(Coalesce(ds.name, ds.id))))
  }

  /** A name part: only name characters, and no '-' at either end. */
  predicate CleanPart(p: string) {
    (forall i :: 0 <= i < |p| ==> NameChar(p[i])) && (p == [] || (p[0] != '-' && p[|p| - 1] != '-'))
  }

  /** The identity part holds only lower-case letters, digits, '-' and '_' and does not start or
      end with '-'. */
  lemma IdPartClean(ds: ArcgisDataset)
    ensures CleanPart(IdPart(ds))
  {
    StripDashesClean(Collapse(ToLower(Coalesce(ds.name, ds.id))));
  }

  lemma StripDashesClean(c: string)
    requires forall i :: 0 <= i < |c| ==> NameChar(c[i])
    ensures CleanPart(StripDashes(c))
  {
    var l := StripLeadingDashes(c);
    var t := StripTrailingDashes(l);
    forall i | 0 <= i < |l|
      ensures NameChar(l[i])
    {
      assert l[i] == c[|c| - |l| + i];
    }
    forall i | 0 <= i < |t|
      ensures NameChar(t[i])
    {
      assert t[i] == l[i];
    }
    if t != [] {
      assert t[0] == l[0];
    }
  }

  /** A name character is kept as it is, after what precedes it. */
  lemma CollapseKeepsNameChar(s: string, c: char)
    requires NameChar(c)
    ensures Collapse(s + [c]) == Collapse(s) + [c]
  {
    assert (s + [c])[..|s|] == s;
  }

  /** A maximal run of other characters, one after the start or after a name character,
      becomes a single '-'. */
  lemma {:induction false} CollapseRun(s: string, run: string)
    requires s == [] || NameChar(s[|s| - 1])
    requires |run| > 0 && forall i :: 0 <= i < |run| ==> !NameChar(run[i])
    ensures Collapse(s + run) == Collapse(s) + "-"
    decreases |run|
  {
    var t := s + run;
    assert t[..|t| - 1] == s + run[..|run| - 1];
    if |run| > 1 {
      CollapseRun(s, run[..|run| - 1]);
      assert t[|t| - 2] == run[|run| - 2];
    }
  }

  /** A string of name characters collapses to itself. */
  lemma {:induction false} CollapseKeeps(s: string)
    requires forall i :: 0 <= i < |s| ==> NameChar(s[i])
    ensures Collapse(s) == s
    decreases |s|
  {
    if |s| > 0 {
      CollapseKeeps(s[..|s| - 1]);
      assert s == s[..|s| - 1] + [s[|s| - 1]];
    }
  }

  /** A clean part is its own identity part: mapping a record whose name is already clean keeps
      that name. */
  lemma IdPartOfClean(ds: ArcgisDataset)
    requires CleanPart(Coalesce(ds.name, ds.id))
    ensures IdPart(ds) == Coalesce(ds.name, ds.id)
  {
    var s := Coalesce(ds.name, ds.id);
    assert ToLower(s) == s;
    CollapseKeeps(s);
  }

  /** Sanitising is idempotent. */
  lemma IdPartIdempotent(ds: ArcgisDataset)
    ensures IdPart(ds.(name := Some(IdPart(ds)))) == IdPart(ds)
  {
    IdPartClean(ds);
    IdPartOfClean(ds.(name := Some(IdPart(ds))));
  }

  // ---------------------------------------------------------------------------
  // Resources

  /** The resource for the record's own URL, when it has one. */
  function Primary(ds: ArcgisDataset): seq<Resource> {
    if Truthy(ds.url) then [SimpleResource(Some(OrDefault(ds.title, ds.id)), ds.url, Some(DetectFormat(ds.url, ds.typ)))]
    else []
  }

  /** `raw?.properties || {}`. */
  function RawProperties(ds: ArcgisDataset): Properties {
    if ds.raw.Some? then PropertiesOf(ds.raw.value) else NoProperties
  }

  /** `a || b` over link lists. */
  function OrList(a: LinkList, b: LinkList): LinkList {
    if a.Falsy? then b else a
  }

  /** The first truthy of links, distribution, resources and assets, when it is an array. */
  function LinkEntries(ds: ArcgisDataset): seq<LinkEntry> {
    var p := RawProperties(ds);
    match OrList(OrList(OrList(p.links, p.distribution), p.resources), p.assets)
    case Entries(es) => es
    case _ => []
  }

  /** `e.href || e.url || e.link`. */
  function LinkUrl(e: LinkEntry): Option<string>
    requires e.Entry?
  {
    Or(Or(e.href, e.url), e.link)
  }

  /** Some resource of `rs` has this URL. */
  predicate HasUrl(rs: seq<Resource>, u: string) {
    exists i :: 0 <= i < |rs| && rs[i].url == Some(u)
  }

  function LinkResource(e: LinkEntry, u: string, dsTitle: Option<string>): Resource
    requires e.Entry?
  {
    SimpleResource(Or(Or(e.title, e.name), dsTitle), Some(u), Some(DetectFormat(Some(u), None)))
  }

  /** One iteration over a link: it is added when its URL is truthy and not listed yet. */
  function AddLink(rs: seq<Resource>, e: LinkEntry, dsTitle: Option<string>): seq<Resource>
    requires e.Entry?
  {
    var u := LinkUrl(e);
    if Truthy(u) && !HasUrl(rs, u.value) then rs + [LinkResource(e, u.value, dsTitle)] else rs
  }

  /** The loop over the links: a `null` entry throws, and the exception ends the loop with the
      resources gathered so far. */
  function Scan(rs: seq<Resource>, es: seq<LinkEntry>, dsTitle: Option<string>): seq<Resource>
    decreases |es|
  {
    if |es| == 0 then rs
    else if es[0].NullEntry? then rs
    else Scan(AddLink(rs, es[0], dsTitle), es[1..], dsTitle)
  }

  /** `ArcgisHarvester.mapSourceDatasetToTarget(ds)`. */
  method MapSourceDatasetToTarget(mainOrg: string, ds: ArcgisDataset) returns (d: Dataset)
    ensures d.ownerOrg == mainOrg && d.name == TargetName(mainOrg, IdPart(ds))
    ensures d.title == Some(OrDefault(ds.title, ds.id)) && d.notes == OrDefault(ds.description, "no description")
    ensures d.language == "EN" && d.tags == OptionalTags(ds.tags) && d.extras.None?
    ensures d.resources == Scan(Primary(ds), LinkEntries(ds), ds.title)
  {
    var resources: seq<Resource> := [];
    if Truthy(ds.url) {
      resources := resources + [SimpleResource(Some(OrDefault(ds.title, ds.id)), ds.url, Some(DetectFormat(ds.url, ds.typ)))];
    }
    var extras := LinkEntries(ds);
    var k := 0;
    assert resources == Primary(ds) && extras[0..] == extras;
    while k < |extras|
      invariant 0 <= k <= |extras|
      invariant Scan(resources, extras[k..], ds.title) == Scan(Primary(ds), extras, ds.title)
    {
      var e := extras[k];
      if e.NullEntry? {
        // reading a property of `null` throws; the catch keeps what was gathered
        break;
      }
      assert extras[k..][1..] == extras[k + 1..];
      var rUrl := Or(Or(e.href, e.url), e.link);
      if Truthy(rUrl) && !(exists i :: 0 <= i < |resources| && resources[i].url == rUrl) {
        resources := resources + [SimpleResource(Or(Or(e.title, e.name), ds.title), rUrl, Some(DetectFormat(rUrl, None)))];
      }
      k := k + 1;
    }
    d := BaseDataset(mainOrg, TargetName(mainOrg, IdPart(ds)), Some(OrDefault(ds.title, ds.id)),
                     OrDefault(ds.description, "no description"), "EN", resources);
    d := d.(tags := OptionalTags(ds.tags));
  }

  /** No two resources share a URL. */
  predicate DistinctUrls(rs: seq<Resource>) {
    forall i, j :: 0 <= i < j < |rs| ==> rs[i].url != rs[j].url
  }

  /** The URLs listed. */
  function UrlSet(rs: seq<Resource>): set<Option<string>> {
    set i | 0 <= i < |rs| :: rs[i].url
  }

  /** The truthy link URLs the loop reaches, that is, those before the first `null` entry. */
  function ReachedUrls(es: seq<LinkEntry>): set<Option<string>>
    decreases |es|
  {
    if |es| == 0 || es[0].NullEntry? then {}
    else (if Truthy(LinkUrl(es[0])) then {LinkUrl(es[0])} else {}) + ReachedUrls(es[1..])
  }

  /** The loop keeps the URLs pairwise distinct and only appends. */
  lemma {:induction false} ScanDistinct(rs: seq<Resource>, es: seq<LinkEntry>, t: Option<string>)
    requires DistinctUrls(rs)
    ensures DistinctUrls(Scan(rs, es, t))
    ensures |rs| <= |Scan(rs, es, t)| && Scan(rs, es, t)[..|rs|] == rs
    decreases |es|
  {
    if |es| > 0 && es[0].Entry? {
      var next := AddLink(rs, es[0], t);
      if next != rs {
        var u := LinkUrl(es[0]).value;
        forall i, j | 0 <= i < j < |next| ensures next[i].url != next[j].url {
          if j == |rs| {
            assert next[j].url == Some(u);
            assert next[i] == rs[i];
          }
        }
      }
      ScanDistinct(next, es[1..], t);
      assert Scan(rs, es, t)[..|next|][..|rs|] == next[..|rs|];
    }
  }

  /** The loop lists exactly the URLs it started with and the truthy link URLs it reaches. */
  lemma {:induction false} ScanUrls(rs: seq<Resource>, es: seq<LinkEntry>, t: Option<string>)
    ensures UrlSet(Scan(rs, es, t)) == UrlSet(rs) + ReachedUrls(es)
    decreases |es|
  {
    if |es| > 0 && es[0].Entry? {
      var next := AddLink(rs, es[0], t);
      var u := LinkUrl(es[0]);
      ScanUrls(next, es[1..], t);
      if Truthy(u) {
        if HasUrl(rs, u.value) {
          var i :| 0 <= i < |rs| && rs[i].url == Some(u.value);
          assert u in UrlSet(rs);
        } else {
          assert next[|rs|].url == u;
          forall x | x in UrlSet(next) ensures x in UrlSet(rs) + {u} {
            var i :| 0 <= i < |next| && next[i].url == x;
            if i < |rs| {
              assert rs[i].url == x;
            }
          }
          forall x | x in UrlSet(rs) ensures x in UrlSet(next) {
            var i :| 0 <= i < |rs| && rs[i].url == x;
            assert next[i].url == x;
          }
        }
      }
    }
  }

  /** The mapped dataset never lists a URL twice, lists the record's own URL first when it has
      one, and lists every truthy link URL the loop reaches and no other. */
  lemma ResourcesDistinct(ds: ArcgisDataset)
    ensures var rs := Scan(Primary(ds), LinkEntries(ds), ds.title);
      && DistinctUrls(rs)
      && (Truthy(ds.url) ==> |rs| >= 1 && rs[0].url == ds.url && rs[0].format == Some(DetectFormat(ds.url, ds.typ)))
      && UrlSet(rs) == UrlSet(Primary(ds)) + ReachedUrls(LinkEntries(ds))
  {
    ScanDistinct(Primary(ds), LinkEntries(ds), ds.title);
    ScanUrls(Primary(ds), LinkEntries(ds), ds.title);
    var rs := Scan(Primary(ds), LinkEntries(ds), ds.title);
    if Truthy(ds.url) {
      assert rs[0] == rs[..1][0];
    }
  }
}
