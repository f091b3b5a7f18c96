/** src/harvesters/lincolnshire.ts: the CKAN mapping of the Lincolnshire portal, with tags,
    licence, contact fields, richer resources and the harvested-metadata extras. */
module LincolnshireHarvester {
  import opened Js
  import opened Schema
  import Json
  import CkanHarvester

  type CkanPackage = CkanHarvester.CkanPackage
  type CkanResource = CkanHarvester.CkanResource
  type CkanEntity = CkanHarvester.CkanEntity

  /** The Open Government Licence v3.0, which every dataset of this portal carries. */
  const OglV3: string := "https://www.nationalarchives.gov.uk/doc/open-government-licence/version/3/"

  const CreatedKey: string := "harvested_pkg_created"
  const ModifiedKey: string := "harvested_pkg_modified"
  const GroupsKey: string := "harvested_pkg_groups"
  const OrgKey: string := "harvested_pkg_org"

  /** The `Object.entries(...).filter(...).map(...)` over the extra fields: the entries whose
      value is neither undefined nor null, in order, as `{ key, value }`. */
  function Defined(entries: seq<(string, Option<string>)>): (r: seq<Extra>)
    ensures |r| <= |entries|
    decreases |entries|
  {
    if |entries| == 0 then []
    else
      var rest := Defined(entries[1..]);
      if entries[0].1.Some? then [Extra(entries[0].0, entries[0].1.value)] + rest else rest
  }

  /** `{ name: g.name, title: g.title || g.display_name }`, serialised. */
  function EntityJson(e: CkanEntity): string {
    Json.Object([("name", e.name), ("title", Or(e.title, e.displayName))])
  }

  /** The value of `harvested_pkg_groups`: the groups as a JSON array, when there are groups. */
  function GroupsValue(pkg: CkanPackage): Option<string> {
    if pkg.groups.Some? then
      var gs := pkg.groups.value;
      Some(Json.Array(seq(|gs|, i requires 0 <= i < |gs| => EntityJson(gs[i]))))
    else None
  }

  /** The value of `harvested_pkg_org`: the organisation as a JSON object, when there is one. */
  function OrgValue(pkg: CkanPackage): Option<string> {
    if pkg.organization.Some? then Some(EntityJson(pkg.organization.value)) else None
  }

  /** One `{ key, value }` when the value is defined, nothing otherwise. */
  function ExtraIfDefined(key: string, value: Option<string>): seq<Extra> {
    if value.Some? then [Extra(key, value.value)] else []
  }

  /** The extras of a package: created, modified, groups, org, each only when defined; the two
      object-valued fields are JSON text, the timestamps pass through. */
  function Extras(pkg: CkanPackage): (r: seq<Extra>)
    ensures r == ExtraIfDefined(CreatedKey, pkg.metadataCreated) + (ExtraIfDefined(ModifiedKey, pkg.metadataModified)
                 + (ExtraIfDefined(GroupsKey, GroupsValue(pkg)) + ExtraIfDefined(OrgKey, OrgValue(pkg))))
  {
    var entries := [(CreatedKey, pkg.metadataCreated), (ModifiedKey, pkg.metadataModified),
                    (GroupsKey, GroupsValue(pkg)), (OrgKey, OrgValue(pkg))];
    DefinedFour(entries[0], entries[1], entries[2], entries[3]);
    Defined(entries)
  }

  /** Filtering four entries keeps each one that is defined, in order. */
  lemma DefinedFour(e0: (string, Option<string>), e1: (string, Option<string>),
                    e2: (string, Option<string>), e3: (string, Option<string>))
    ensures Defined([e0, e1, e2, e3]) == ExtraIfDefined(e0.0, e0.1) + (ExtraIfDefined(e1.0, e1.1)
                                         + (ExtraIfDefined(e2.0, e2.1) + ExtraIfDefined(e3.0, e3.1)))
  {
    DefinedCons(e3, []);
    assert [e2, e3] == [e2] + [e3];
    DefinedCons(e2, [e3]);
    assert [e1, e2, e3] == [e1] + [e2, e3];
    DefinedCons(e1, [e2, e3]);
    assert [e0, e1, e2, e3] == [e0] + [e1, e2, e3];
    DefinedCons(e0, [e1, e2, e3]);
  }

  lemma DefinedCons(e: (string, Option<string>), rest: seq<(string, Option<string>)>)
    ensures Defined([e] + rest) == ExtraIfDefined(e.0, e.1) + Defined(rest)
  {
    assert ([e] + rest)[1..] == rest;
  }


  /** The JSON-valued extras are a JSON array and a JSON object. */
  lemma ExtrasEncoded(pkg: CkanPackage)
    ensures GroupsValue(pkg).Some? ==> var v := GroupsValue(pkg).value; v[0] == '[' && v[|v| - 1] == ']'
    ensures OrgValue(pkg).Some? ==> var v := OrgValue(pkg).value; v[0] == '{' && v[|v| - 1] == '}'
    ensures GroupsValue(pkg).Some? <==> pkg.groups.Some?
    ensures OrgValue(pkg).Some? <==> pkg.organization.Some?
  {
  }

  /** The title of a group or organisation reference: `title || display_name`. */
  lemma EntityTitle(e: CkanEntity)
    requires Truthy(e.title) || e.displayName.Some?
    ensures EntityJson(e) == Json.Object([("name", e.name), ("title", Some(if Truthy(e.title) then e.title.value else e.displayName.value))])
  {
  }

  /** `t.display_name || t.name`. */
  function TagName(t: CkanHarvester.CkanTag): (n: Option<string>)
    ensures Truthy(t.displayName) ==> n == t.displayName
    ensures !Truthy(t.displayName) ==> n == t.name
  {
    Or(t.displayName, t.name)
  }

  /** The resource literal of this portal, with `last_modified` as `harvested_last_modified`. */
  function MapResource(r: CkanResource): Resource {
    Resource(r.name, r.url, r.format, r.description, r.lastModified, r.position, None)
  }

  /** `LincolnshireHarvester.mapSourceDatasetToTarget(pkg)`. */
  function MapSourceDatasetToTarget(mainOrg: string, pkg: CkanPackage): (d: Dataset)
    ensures d.ownerOrg == mainOrg && d.name == TargetName(mainOrg, pkg.name) && d.title == pkg.title
    ensures d.notes == OrDefault(pkg.notes, "no description") && d.language == OrDefault(pkg.language, "EN")
    ensures d.tags.Some? <==> pkg.tags.Some?
    ensures pkg.tags.Some? ==>
              && |d.tags.value| == |pkg.tags.value|
              && forall i :: 0 <= i < |pkg.tags.value| ==> d.tags.value[i] == Tag(TagName(pkg.tags.value[i]))
    ensures d.rights == Some(OglV3)
    ensures d.licenseId == pkg.licenseId && d.version == pkg.version && d.author == pkg.author
            && d.authorEmail == pkg.authorEmail && d.maintainer == pkg.maintainer
            && d.maintainerEmail == pkg.maintainerEmail
    ensures |d.resources| == |CkanHarvester.SourceResources(pkg)|
    ensures forall i :: 0 <= i < |d.resources| ==>
              var r := CkanHarvester.SourceResources(pkg)[i];
              && d.resources[i].harvestedLastModified == r.lastModified && d.resources[i].position == r.position
              && d.resources[i].url == r.url && d.resources[i].name == r.name
              && d.resources[i].format == r.format && d.resources[i].description == r.description
    ensures d.extras == Some(Extras(pkg))
  {
    var resources := CkanHarvester.SourceResources(pkg);
    var tags := if pkg.tags.Some? then
                  var ts := pkg.tags.value;
                  Some(seq(|ts|, i requires 0 <= i < |ts| => Tag(TagName(ts[i]))))
                else None;
    Dataset(mainOrg, TargetName(mainOrg, pkg.name), pkg.title, OrDefault(pkg.notes, "no description"),
            OrDefault(pkg.language, "EN"),
            seq(|resources|, i requires 0 <= i < |resources| => MapResource(resources[i])),
            tags, Some(Extras(pkg)), pkg.author, pkg.licenseId, Some(OglV3), pkg.version, pkg.authorEmail,
            pkg.maintainer, pkg.maintainerEmail)
  }

  function Keys(extras: seq<Extra>): seq<string> {
    seq(|extras|, i requires 0 <= i < |extras| => extras[i].key)
  }

  lemma KeysAppend(a: seq<Extra>, b: seq<Extra>)
    ensures Keys(a + b) == Keys(a) + Keys(b)
  {
  }

  /** Every extra key is one of the four harvested keys, at most once, and a key is present
      exactly when its value is defined. */
  lemma ExtrasKeys(pkg: CkanPackage)
    ensures var keys := Keys(Extras(pkg));
      && (CreatedKey in keys <==> pkg.metadataCreated.Some?)
      && (ModifiedKey in keys <==> pkg.metadataModified.Some?)
      && (GroupsKey in keys <==> pkg.groups.Some?)
      && (OrgKey in keys <==> pkg.organization.Some?)
      && (forall k :: k in keys ==> k in [CreatedKey, ModifiedKey, GroupsKey, OrgKey])
      && Distinct(keys)
  {
    KeysDistinct();
    FourKeys(CreatedKey, pkg.metadataCreated, ModifiedKey, pkg.metadataModified,
             GroupsKey, GroupsValue(pkg), OrgKey, OrgValue(pkg));
  }

  /** The keys of four optional extras with distinct keys. */
  lemma FourKeys(k1: string, v1: Option<string>, k2: string, v2: Option<string>,
                 k3: string, v3: Option<string>, k4: string, v4: Option<string>)
    requires k1 != k2 && k1 != k3 && k1 != k4 && k2 != k3 && k2 != k4 && k3 != k4
    ensures var keys := Keys(ExtraIfDefined(k1, v1) + (ExtraIfDefined(k2, v2) + (ExtraIfDefined(k3, v3) + ExtraIfDefined(k4, v4))));
      && (k1 in keys <==> v1.Some?) && (k2 in keys <==> v2.Some?)
      && (k3 in keys <==> v3.Some?) && (k4 in keys <==> v4.Some?)
      && (forall k :: k in keys ==> k in [k1, k2, k3, k4])
      && Distinct(keys)
  {
    var a, b, c, e := ExtraIfDefined(k1, v1), ExtraIfDefined(k2, v2), ExtraIfDefined(k3, v3), ExtraIfDefined(k4, v4);
    KeysAppend(a, b + (c + e));
    KeysAppend(b, c + e);
    KeysAppend(c, e);
    KeyIfDefined(k1, v1);
    KeyIfDefined(k2, v2);
    KeyIfDefined(k3, v3);
    KeyIfDefined(k4, v4);
    var keys := Keys(a + (b + (c + e)));
    forall k
      ensures k in keys <==> (v1.Some? && k == k1) || (v2.Some? && k == k2) || (v3.Some? && k == k3) || (v4.Some? && k == k4)
    {
      assert keys == Keys(a) + (Keys(b) + (Keys(c) + Keys(e)));
    }
    ConsDistinct(Keys(c), Keys(e));
    ConsDistinct(Keys(b), Keys(c) + Keys(e));
    ConsDistinct(Keys(a), Keys(b) + (Keys(c) + Keys(e)));
  }

  /** No key is listed twice. */
  predicate Distinct(keys: seq<string>) {
    forall i, j :: 0 <= i < j < |keys| ==> keys[i] != keys[j]
  }

  /** Putting at most one key that is not listed yet in front of distinct keys keeps them distinct. */
  lemma ConsDistinct(h: seq<string>, t: seq<string>)
    requires |h| <= 1 && Distinct(t)
    requires forall x :: x in h ==> x !in t
    ensures Distinct(h + t)
  {
    if |h| == 1 {
      forall i, j | 0 <= i < j < |h + t| ensures (h + t)[i] != (h + t)[j] {
        assert (h + t)[j] == t[j - 1];
        if i == 0 {
          assert (h + t)[i] == h[0] && h[0] in h;
          assert t[j - 1] in t;
        } else {
          assert (h + t)[i] == t[i - 1];
        }
      }
    }
  }

  lemma KeyIfDefined(k: string, v: Option<string>)
    ensures Keys(ExtraIfDefined(k, v)) == if v.Some? then [k] else []
  {
  }

  lemma KeysDistinct()
    ensures CreatedKey != ModifiedKey && CreatedKey != GroupsKey && CreatedKey != OrgKey
    ensures ModifiedKey != GroupsKey && ModifiedKey != OrgKey && GroupsKey != OrgKey
  {
    // the four keys differ at index 14: 'c', 'm', 'g', 'o'
    assert CreatedKey[14] == 'c' && ModifiedKey[14] == 'm' && GroupsKey[14] == 'g' && OrgKey[14] == 'o';
  }
}
