/** src/harvesters/dkan.ts: the mapping of a DKAN (DCAT-US) dataset to a target dataset. */
module DkanHarvester {
  import opened Js
  import opened Schema

  datatype DkanResource = DkanResource(
    identifier: Option<string>, title: Option<string>, format: Option<string>, mediaType: Option<string>,
    downloadUrl: Option<string>, accessUrl: Option<string>)

  datatype DkanDataset = DkanDataset(
    identifier: string, title: Option<string>, description: Option<string>, distribution: Option<seq<DkanResource>>)

  /** `pkg.distribution || []`. */
  function Distribution(pkg: DkanDataset): seq<DkanResource> {
    if pkg.distribution.Some? then pkg.distribution.value else []
  }

  /** `r.downloadURL || r.accessURL || ""`. */
  function ResourceUrl(r: DkanResource): (url: string)
    ensures Truthy(r.downloadUrl) ==> url == r.downloadUrl.value
    ensures !Truthy(r.downloadUrl) && Truthy(r.accessUrl) ==> url == r.accessUrl.value
    ensures !Truthy(r.downloadUrl) && !Truthy(r.accessUrl) ==> url == ""
  {
    OrDefault(Or(r.downloadUrl, r.accessUrl), "")
  }

  /** `r.format || r.mediaType || "unknown"`. */
  function ResourceFormat(r: DkanResource): (format: string)
    ensures format != ""
    ensures Truthy(r.format) ==> format == r.format.value
    ensures !Truthy(r.format) && Truthy(r.mediaType) ==> format == r.mediaType.value
    ensures !Truthy(r.format) && !Truthy(r.mediaType) ==> format == "unknown"
  {
    OrDefault(Or(r.format, r.mediaType), "unknown")
  }

  /** The resource literal, with `id` spread in only when `identifier` is truthy. */
  function MapResource(r: DkanResource): (res: Resource)
    ensures res.id.Some? <==> Truthy(r.identifier)
    ensures res.id.Some? ==> res.id == r.identifier
    ensures res.name == r.title && res.url == Some(ResourceUrl(r)) && res.format == Some(ResourceFormat(r))
  {
    Resource(r.title, Some(ResourceUrl(r)), Some(ResourceFormat(r)), None, None, None,
             if Truthy(r.identifier) then r.identifier else None)
  }

  /** `DkanHarvester.mapSourceDatasetToTarget(pkg)`. */
  function MapSourceDatasetToTarget(mainOrg: string, pkg: DkanDataset): (d: Dataset)
    ensures d.ownerOrg == mainOrg && d.name == TargetName(mainOrg, pkg.identifier) && d.title == pkg.title
    ensures d.notes == OrDefault(pkg.description, "no description")
    ensures d.language == "EN"
    ensures |d.resources| == |Distribution(pkg)|
    ensures forall i :: 0 <= i < |d.resources| ==> d.resources[i] == MapResource(Distribution(pkg)[i])
  {
    var rs := Distribution(pkg);
    BaseDataset(mainOrg, TargetName(mainOrg, pkg.identifier), pkg.title, OrDefault(pkg.description, "no description"),
                "EN", seq(|rs|, i requires 0 <= i < |rs| => MapResource(rs[i])))
  }

  /** Every mapped resource has a url and a non-empty format, and carries an id exactly when its
      distribution has a truthy identifier. */
  lemma ResourcesComplete(mainOrg: string, pkg: DkanDataset)
    ensures var d := MapSourceDatasetToTarget(mainOrg, pkg);
      forall i :: 0 <= i < |d.resources| ==>
        && d.resources[i].url.Some? && d.resources[i].format.Some? && d.resources[i].format.value != ""
        && (d.resources[i].id.Some? <==> Truthy(Distribution(pkg)[i].identifier))
  {
  }
}
