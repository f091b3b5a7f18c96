/** src/harvesters/ckan.ts: the mapping of a CKAN package to a target dataset. */
module CkanHarvester {
  import opened Js
  import opened Schema

  datatype CkanResource = CkanResource(
    name: Option<string>, url: Option<string>, format: Option<string>, description: Option<string>,
    lastModified: Option<string>, position: Option<int>)

  datatype CkanTag = CkanTag(name: Option<string>, displayName: Option<string>)

  /** A group or organisation reference inside a package. */
  datatype CkanEntity = CkanEntity(name: Option<string>, title: Option<string>, displayName: Option<string>)

  /** A package as `package_search` returns it; absent and null properties are `None`. */
  datatype CkanPackage = CkanPackage(
    name: string,
    title: Option<string>,
    notes: Option<string>,
    language: Option<string>,
    resources: Option<seq<CkanResource>>,
    tags: Option<seq<CkanTag>>,
    licenseId: Option<string>,
    version: Option<string>,
    author: Option<string>,
    authorEmail: Option<string>,
    maintainer: Option<string>,
    maintainerEmail: Option<string>,
    metadataCreated: Option<string>,
    metadataModified: Option<string>,
    groups: Option<seq<CkanEntity>>,
    organization: Option<CkanEntity>)

  const NoDescription: string := "no description"

  /** `pkg.resources || []`. */
  function SourceResources(pkg: CkanPackage): seq<CkanResource> {
    if pkg.resources.Some? then pkg.resources.value else []
  }

  /** The resource literal `{ name, url, format }` of the CKAN mapper. */
  function MapResource(r: CkanResource): Resource {
    SimpleResource(r.name, r.url, r.format)
  }

  /** `CkanHarvester.mapSourceDatasetToTarget(pkg)`; `mainOrg` is PORTALJS_CLOUD_MAIN_ORG. */
  function MapSourceDatasetToTarget(mainOrg: string, pkg: CkanPackage): (d: Dataset)
    ensures d.ownerOrg == mainOrg && d.name == TargetName(mainOrg, pkg.name)
    ensures d.title == pkg.title
    ensures Truthy(pkg.notes) ==> d.notes == pkg.notes.value
    ensures !Truthy(pkg.notes) ==> d.notes == NoDescription
    ensures Truthy(pkg.language) ==> d.language == pkg.language.value
    ensures !Truthy(pkg.language) ==> d.language == "EN"
    ensures |d.resources| == |SourceResources(pkg)|
    ensures forall i :: 0 <= i < |d.resources| ==>
              var r := SourceResources(pkg)[i];
              d.resources[i] == Resource(r.name, r.url, r.format, None, None, None, None)
    ensures d.tags.None? && d.extras.None? && d.rights.None? && d.licenseId.None?
  {
    var resources := SourceResources(pkg);
    BaseDataset(mainOrg, TargetName(mainOrg, pkg.name), pkg.title, OrDefault(pkg.notes, NoDescription),
                OrDefault(pkg.language, "EN"), seq(|resources|, i requires 0 <= i < |resources| => MapResource(resources[i])))
  }

  /** The URLs of a list of resources, in order. */
  function Urls(rs: seq<Resource>): seq<Option<string>> {
    seq(|rs|, i requires 0 <= i < |rs| => rs[i].url)
  }

  /** The mapped dataset links to exactly the source's resource URLs, in the source's order, and
      packages with different names never land on the same target name. */
  lemma MappingKeepsIdentity(mainOrg: string, p: CkanPackage, q: CkanPackage)
    ensures Urls(MapSourceDatasetToTarget(mainOrg, p).resources)
            == seq(|SourceResources(p)|, i requires 0 <= i < |SourceResources(p)| => SourceResources(p)[i].url)
    ensures MapSourceDatasetToTarget(mainOrg, p).name == MapSourceDatasetToTarget(mainOrg, q).name ==> p.name == q.name
  {
    if MapSourceDatasetToTarget(mainOrg, p).name == MapSourceDatasetToTarget(mainOrg, q).name {
      TargetNameInjective(mainOrg, p.name, q.name);
    }
  }
}
