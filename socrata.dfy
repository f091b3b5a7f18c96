/** src/harvesters/socrata.ts: the mapping of a Socrata view to a target dataset. The mapper
    builds its resources and extras by pushing onto arrays, and so does the method here. */
module SocrataHarvester {
  import opened Js
  import opened Schema

  datatype Attachment = Attachment(
    filename: Option<string>, assetId: Option<string>, blobId: Option<string>, name: Option<string>)

  /** A Socrata view; `ownerDisplayName` is `owner?.displayName`. */
  datatype SocrataDataset = SocrataDataset(
    id: string, name: Option<string>, description: Option<string>, ownerDisplayName: Option<string>,
    category: Option<string>, attachments: Option<seq<Attachment>>, viewType: Option<string>,
    tags: Option<seq<string>>)

  /** `ds.metadata.attachments ?? []`. */
  function Attachments(ds: SocrataDataset): seq<Attachment> {
    if ds.attachments.Some? then ds.attachments.value else []
  }

  /** The download URL of an attachment: the view's file endpoint when it has an asset id,
      otherwise the asset endpoint of its blob. */
  function AttachmentUrl(source: string, id: string, att: Attachment): string {
    if Truthy(att.assetId) then source + "/api/views/" + id + "/files/" + att.assetId.value + "?filename=" + Show(att.filename)
    else source + "/api/assets/" + Show(att.blobId) + "?download=true"
  }

  /** `{ name: att.name ?? att.filename, url }`. */
  function AttachmentResource(source: string, id: string, att: Attachment): Resource {
    SimpleResource(if att.name.Some? then att.name else att.filename, Some(AttachmentUrl(source, id, att)), None)
  }

  function AttachmentResources(source: string, id: string, atts: seq<Attachment>): (rs: seq<Resource>)
    ensures |rs| == |atts|
    ensures forall i :: 0 <= i < |atts| ==> rs[i] == AttachmentResource(source, id, atts[i])
  {
    seq(|atts|, i requires 0 <= i < |atts| => AttachmentResource(source, id, atts[i]))
  }

  /** The CSV export of a tabular view. */
  function TabularResource(source: string, ds: SocrataDataset): Resource {
    SimpleResource(ds.name, Some(source + "/api/views/" + ds.id + "/rows.csv"), None)
  }

  predicate IsTabular(ds: SocrataDataset) {
    ds.viewType == Some("tabular")
  }

  /** The resources of a view: one per attachment, in order, then the CSV export of a tabular view. */
  function Resources(source: string, ds: SocrataDataset): seq<Resource> {
    AttachmentResources(source, ds.id, Attachments(ds)) + (if IsTabular(ds) then [TabularResource(source, ds)] else [])
  }

  /** The extras of a view: the source URL and the harvest time, then the category when truthy. */
  function Extras(source: string, now: string, ds: SocrataDataset): seq<Extra> {
    [Extra("Source URL", source + "/d/" + ds.id), Extra("Last Harvested At", now)]
    + (if Truthy(ds.category) then [Extra("Category", ds.category.value)] else [])
  }

  /** `SocrataHarvester.mapSourceDatasetToTarget(ds)`; `source` is the configured source URL and
      `now` the ISO timestamp of the harvest. */
  method MapSourceDatasetToTarget(mainOrg: string, source: string, now: string, ds: SocrataDataset)
    returns (d: Dataset)
    ensures d.ownerOrg == mainOrg && d.name == TargetName(mainOrg, ds.id) && d.title == ds.name
    ensures d.notes == OrDefault(ds.description, "no description") && d.language == "EN"
    ensures d.author == ds.ownerDisplayName
    ensures d.resources == Resources(source, ds)
    ensures d.tags == OptionalTags(ds.tags)
    ensures d.extras == Some(Extras(source, now, ds))
  {
    var resources: seq<Resource> := [];
    var atts := Attachments(ds);
    for k := 0 to |atts|
      invariant resources == AttachmentResources(source, ds.id, atts[..k])
    {
      var att := atts[k];
      var url := "";
      if Truthy(att.assetId) {
        url := source + "/api/views/" + ds.id + "/files/" + att.assetId.value + "?filename=" + Show(att.filename);
      } else {
        url := source + "/api/assets/" + Show(att.blobId) + "?download=true";
      }
      resources := resources + [SimpleResource(if att.name.Some? then att.name else att.filename, Some(url), None)];
    }
    assert atts[..|atts|] == atts;
    if ds.viewType == Some("tabular") {
      resources := resources + [SimpleResource(ds.name, Some(source + "/api/views/" + ds.id + "/rows.csv"), None)];
    }
    var extras: seq<Extra> := [];
    extras := extras + [Extra("Source URL", source + "/d/" + ds.id)];
    extras := extras + [Extra("Last Harvested At", now)];
    if Truthy(ds.category) {
      extras := extras + [Extra("Category", ds.category.value)];
    }
    assert extras == Extras(source, now, ds);
    d := Dataset(mainOrg, TargetName(mainOrg, ds.id), ds.name, OrDefault(ds.description, "no description"), "EN",
                 resources, OptionalTags(ds.tags), Some(extras), ds.ownerDisplayName, None, None, None, None, None, None);
  }

  /** One resource per attachment in order, each downloadable by URL, and the CSV export last
      exactly for a tabular view. */
  lemma ResourcesShape(source: string, ds: SocrataDataset)
    ensures var rs := Resources(source, ds); var atts := Attachments(ds);
      && |rs| == |atts| + (if IsTabular(ds) then 1 else 0)
      && (forall i :: 0 <= i < |atts| ==> rs[i].url == Some(AttachmentUrl(source, ds.id, atts[i])))
      && (forall i :: 0 <= i < |atts| ==> rs[i].name == (if atts[i].name.Some? then atts[i].name else atts[i].filename))
      && (IsTabular(ds) ==> rs[|rs| - 1] == TabularResource(source, ds))
      && (forall i :: 0 <= i < |rs| ==> rs[i].url.Some? && rs[i].format.None?)
  {
  }

  /** The attachment URL is an API URL of the source: the view's file endpoint for the asset when
      there is one, the asset endpoint otherwise. */
  lemma AttachmentUrlShape(source: string, id: string, att: Attachment)
    ensures var url := AttachmentUrl(source, id, att);
      && IsPrefix(source + "/api/", url)
      && (Truthy(att.assetId) ==> IsPrefix(source + "/api/views/" + id + "/files/" + att.assetId.value, url))
      && (!Truthy(att.assetId) ==> IsPrefix(source + "/api/assets/", url))
  {
    var url := AttachmentUrl(source, id, att);
    if Truthy(att.assetId) {
      var p := source + "/api/views/" + id + "/files/" + att.assetId.value;
      assert url == p + "?filename=" + Show(att.filename);
      assert url[..|p|] == p;
      assert url[..|source + "/api/"|] == (source + "/api/views/")[..|source + "/api/"|];
    } else {
      assert url == source + "/api/assets/" + (Show(att.blobId) + "?download=true");
      assert url[..|source + "/api/"|] == (source + "/api/assets/")[..|source + "/api/"|];
    }
  }

  /** The extras are the source URL and the harvest time, in that order, then the category
      exactly when it is truthy. */
  lemma ExtrasShape(source: string, now: string, ds: SocrataDataset)
    ensures var xs := Extras(source, now, ds);
      && |xs| == (if Truthy(ds.category) then 3 else 2)
      && xs[0] == Extra("Source URL", source + "/d/" + ds.id) && xs[1] == Extra("Last Harvested At", now)
      && (Truthy(ds.category) ==> xs[2] == Extra("Category", ds.category.value))
  {
  }
}
