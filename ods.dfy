/** src/harvesters/ods.ts: the mapping of an OpenDataSoft catalog dataset to a target dataset.
    The mapper pushes the export links, then the attachments, onto the resource array. */
module OdsHarvester {
  import opened Js
  import opened Schema
  import Utils

  datatype OdsAttachment = OdsAttachment(filename: Option<string>, url: Option<string>)

  /** `dataset.metas.default`. */
  datatype OdsMetadata = OdsMetadata(
    title: Option<string>, description: Option<string>, publisher: Option<string>,
    language: Option<string>, theme: Option<seq<string>>)

  /** A catalog dataset; `metadata` is `None` when `metas` is missing. */
  datatype OdsDataset = OdsDataset(datasetId: string, metadata: Option<OdsMetadata>, attachments: Option<seq<OdsAttachment>>)

  /** The export formats linked for every dataset, in order. */
  const ExportFormats: seq<string> := ["csv", "json", "xlsx"]

  /** The export link of one format. */
  function ExportResource(baseUrl: string, datasetId: string, title: Option<string>, format: string): Resource {
    SimpleResource(Some(Show(title) + ": " + ToUpper(format)),
                   Some(baseUrl + "/api/v2/catalog/datasets/" + datasetId + "/exports/" + format),
                   Some(ToUpper(format)))
  }

  function ExportResources(baseUrl: string, datasetId: string, title: Option<string>, formats: seq<string>): (rs: seq<Resource>)
    ensures |rs| == |formats|
    ensures forall i :: 0 <= i < |formats| ==> rs[i] == ExportResource(baseUrl, datasetId, title, formats[i])
  {
    seq(|formats|, i requires 0 <= i < |formats| => ExportResource(baseUrl, datasetId, title, formats[i]))
  }

  /** `att.filename?.split(".").pop()?.toUpperCase() || "FILE"`. */
  function AttachmentFormat(filename: Option<string>): string {
    if filename.Some? then UpperExtension(filename.value, "FILE") else "FILE"
  }

  /** The resource of the attachment at (0-based) `index`. */
  function AttachmentResource(att: OdsAttachment, index: nat): Resource {
    SimpleResource(Some(OrDefault(att.filename, "attachment-" + NatToString(index + 1))), att.url,
                   Some(AttachmentFormat(att.filename)))
  }

  function AttachmentResources(atts: seq<OdsAttachment>): (rs: seq<Resource>)
    ensures |rs| == |atts|
    ensures forall i :: 0 <= i < |atts| ==> rs[i] == AttachmentResource(atts[i], i)
  {
    seq(|atts|, i requires 0 <= i < |atts| => AttachmentResource(atts[i], i))
  }

  /** `ds.dataset.attachments ?? []`. */
  function Attachments(ds: OdsDataset): seq<OdsAttachment> {
    if ds.attachments.Some? then ds.attachments.value else []
  }

  /** `item.split(/\s*,\s*\/).map((str) => str.trim())`. Splitting on the comma and trimming
      every piece gives the same pieces, since the whitespace the pattern takes around a comma
      is exactly what the trim removes. */
  function ThemePieces(item: string): (ps: seq<string>)
    ensures |ps| >= 1
  {
    var pieces := Split(item, ',');
    seq(|pieces|, i requires 0 <= i < |pieces| => Trim(pieces[i]))
  }

  /** The `flatMap` over the themes. */
  function ThemeNames(themes: seq<string>): (names: seq<string>)
    ensures |names| >= |themes|
    decreases |themes|
  {
    if |themes| == 0 then [] else ThemePieces(themes[0]) + ThemeNames(themes[1..])
  }

  /** A tag name of a theme: no comma and no white space at either end. */
  predicate CleanTag(t: string) {
    ',' !in t && (t == [] || (!IsSpace(t[0]) && !IsSpace(t[|t| - 1])))
  }

  /** Trimming keeps out a character the string does not hold. */
  lemma TrimKeepsOut(s: string, c: char)
    requires c !in s
    ensures c !in Trim(s)
  {
    var t := Trim(s);
    var off := |s| - |TrimStart(s)|;
    assert forall j :: 0 <= j < |t| ==> t[j] == s[off + j];
  }

  lemma ThemePiecesClean(item: string)
    ensures forall i :: 0 <= i < |ThemePieces(item)| ==> CleanTag(ThemePieces(item)[i])
  {
    var pieces := Split(item, ',');
    SplitPiecesFree(item, ',');
    forall i | 0 <= i < |pieces| ensures CleanTag(ThemePieces(item)[i]) {
      TrimKeepsOut(pieces[i], ',');
    }
  }

  /** The tag names hold no comma and no surrounding white space. */
  lemma {:induction false} ThemeNamesClean(themes: seq<string>)
    ensures forall i :: 0 <= i < |ThemeNames(themes)| ==> CleanTag(ThemeNames(themes)[i])
    decreases |themes|
  {
    if |themes| > 0 {
      ThemeNamesClean(themes[1..]);
      ThemePiecesClean(themes[0]);
      CleanAppend(ThemePieces(themes[0]), ThemeNames(themes[1..]));
    }
  }

  lemma CleanAppend(ps: seq<string>, rest: seq<string>)
    requires forall i :: 0 <= i < |ps| ==> CleanTag(ps[i])
    requires forall i :: 0 <= i < |rest| ==> CleanTag(rest[i])
    ensures forall i :: 0 <= i < |ps + rest| ==> CleanTag((ps + rest)[i])
  {
    forall i | 0 <= i < |ps + rest| ensures CleanTag((ps + rest)[i]) {
      if i >= |ps| {
        assert (ps + rest)[i] == rest[i - |ps|];
      }
    }
  }

  /** A theme without a comma becomes a single, trimmed tag. */
  lemma ThemeWithoutComma(item: string)
    requires ',' !in item
    ensures ThemePieces(item) == [Trim(item)]
  {
    SplitSingle(item, ',');
  }

  /** The mapped dataset; `baseUrl` is the configured source URL, `now` the harvest time. */
  method MapSourceDatasetToTarget(mainOrg: string, baseUrl: string, now: string, ds: OdsDataset)
    returns (r: Option<Dataset>)
    // reading `metadata.title` throws when the dataset has no default metadata
    ensures r.None? <==> ds.metadata.None?
    ensures r.Some? ==>
      var d := r.value; var m := ds.metadata.value;
      && d.ownerOrg == mainOrg && d.name == TargetName(mainOrg, ds.datasetId) && d.title == m.title
      && d.notes == OrDefault(m.description, "no description") && d.author == m.publisher
      && d.language == Utils.MapLanguage(m.language)
      && d.resources == ExportResources(baseUrl, ds.datasetId, m.title, ExportFormats) + AttachmentResources(Attachments(ds))
      && d.tags == (if m.theme.Some? then Some(TagsOf(ThemeNames(m.theme.value))) else None)
      && d.extras == Some([Extra("Source URL", baseUrl + "/explore/dataset/" + ds.datasetId), Extra("Last Harvested At", now)])
  {
    if ds.metadata.None? {
      return None;
    }
    var metadata := ds.metadata.value;
    var datasetId := ds.datasetId;
    var datasetTitle := metadata.title;
    var attachments := Attachments(ds);
    var resources: seq<Resource> := [];
    var extras: seq<Extra> := [];
    extras := extras + [Extra("Source URL", baseUrl + "/explore/dataset/" + datasetId)];
    extras := extras + [Extra("Last Harvested At", now)];
    assert extras == [Extra("Source URL", baseUrl + "/explore/dataset/" + datasetId), Extra("Last Harvested At", now)];
    for k := 0 to |ExportFormats|
      invariant resources == ExportResources(baseUrl, datasetId, datasetTitle, ExportFormats[..k])
    {
      var format := ExportFormats[k];
      resources := resources + [SimpleResource(Some(Show(datasetTitle) + ": " + ToUpper(format)),
                                               Some(baseUrl + "/api/v2/catalog/datasets/" + datasetId + "/exports/" + format),
                                               Some(ToUpper(format)))];
    }
    assert ExportFormats[..|ExportFormats|] == ExportFormats;
    ghost var exports := resources;
    for index := 0 to |attachments|
      invariant resources == exports + AttachmentResources(attachments[..index])
    {
      var att := attachments[index];
      var name := OrDefault(att.filename, "attachment-" + NatToString(index + 1));
      var format := if att.filename.Some? then UpperExtension(att.filename.value, "FILE") else "FILE";
      resources := resources + [SimpleResource(Some(name), att.url, Some(format))];
    }
    assert attachments[..|attachments|] == attachments;
    var tags := if metadata.theme.Some? then Some(TagsOf(ThemeNames(metadata.theme.value))) else None;
    return Some(Dataset(mainOrg, TargetName(mainOrg, datasetId), datasetTitle, OrDefault(metadata.description, "no description"),
                        Utils.MapLanguage(metadata.language), resources, tags, Some(extras), metadata.publisher,
                        None, None, None, None, None, None));
  }

  /** The three exports, CSV, JSON and XLSX in that order, named after the dataset title and
      linked to the export endpoint of the dataset. */
  lemma ExportsShape(baseUrl: string, datasetId: string, title: Option<string>)
    ensures var rs := ExportResources(baseUrl, datasetId, title, ExportFormats);
      && |rs| == 3
      && rs[0].format == Some("CSV") && rs[1].format == Some("JSON") && rs[2].format == Some("XLSX")
      && rs[0].name == Some(Show(title) + ": CSV")
      && rs[1].name == Some(Show(title) + ": JSON")
      && rs[2].name == Some(Show(title) + ": XLSX")
      && rs[0].url == Some(baseUrl + "/api/v2/catalog/datasets/" + datasetId + "/exports/csv")
      && rs[1].url == Some(baseUrl + "/api/v2/catalog/datasets/" + datasetId + "/exports/json")
      && rs[2].url == Some(baseUrl + "/api/v2/catalog/datasets/" + datasetId + "/exports/xlsx")
  {
    assert ToUpper("csv") == "CSV" && ToUpper("json") == "JSON" && ToUpper("xlsx") == "XLSX";
    var prefix := baseUrl + "/api/v2/catalog/datasets/" + datasetId;
    assert prefix + "/exports/" + "csv" == prefix + "/exports/csv";
    assert prefix + "/exports/" + "json" == prefix + "/exports/json";
    assert prefix + "/exports/" + "xlsx" == prefix + "/exports/xlsx";
    assert Show(title) + ": " + "CSV" == Show(title) + ": CSV";
    assert Show(title) + ": " + "JSON" == Show(title) + ": JSON";
    assert Show(title) + ": " + "XLSX" == Show(title) + ": XLSX";
  }

  /** After the three exports comes one resource per attachment, in order, linked to the
      attachment's URL and named by its file name or by its 1-based position. */
  lemma ResourcesShape(baseUrl: string, ds: OdsDataset, title: Option<string>)
    ensures var rs := ExportResources(baseUrl, ds.datasetId, title, ExportFormats) + AttachmentResources(Attachments(ds));
      && |rs| == 3 + |Attachments(ds)|
      && forall i :: 0 <= i < |Attachments(ds)| ==>
           rs[3 + i].url == Attachments(ds)[i].url
           && rs[3 + i].name == Some(OrDefault(Attachments(ds)[i].filename, "attachment-" + NatToString(i + 1)))
  {
    var exports, atts := ExportResources(baseUrl, ds.datasetId, title, ExportFormats), AttachmentResources(Attachments(ds));
    forall i | 0 <= i < |Attachments(ds)|
      ensures (exports + atts)[3 + i] == AttachmentResource(Attachments(ds)[i], i)
    {
      assert (exports + atts)[3 + i] == atts[i];
    }
  }

  /** An attachment's format is never empty and holds no dot: "FILE" without a file name,
      otherwise the upper-cased extension of the file name or "FILE". */
  lemma AttachmentFormatShape(filename: Option<string>)
    ensures var f := AttachmentFormat(filename);
      && f != "" && '.' !in f
      && (filename.None? ==> f == "FILE")
      && (filename.Some? ==> f == UpperExtension(filename.value, "FILE"))
  {
    if filename.Some? {
      UpperExtensionShape(filename.value, "FILE");
    }
  }
}
