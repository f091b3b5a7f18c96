/** src/harvesters/dataverse.ts: the mapping of a Dataverse dataset, with its details, to a target
    dataset. The mapper pushes one resource per file and then eight extras. */
module DataverseHarvester {
  import opened Js
  import opened Schema

  /** `file.dataFile`, reduced to what the mapper reads. */
  datatype DataFile = DataFile(id: nat, filename: string)

  /** A search item joined with `__details`; `files` is `__details.latestVersion.files`. */
  datatype DataverseDataset = DataverseDataset(
    name: Option<string>, url: string, globalId: string, description: string, author: Option<string>,
    keywords: Option<seq<string>>, majorVersion: nat, minorVersion: nat, versionState: string,
    publisher: string, files: Option<seq<DataFile>>)

  /** A character the sanitiser keeps: an ASCII letter or digit, '-' or '_'. The `i` flag makes
      the class match both cases of a letter and nothing else. */
  predicate Kept(c: char) {
    ('a' <= c <= 'z') || ('A' <= c <= 'Z') || ('0' <= c <= '9') || c == '-' || c == '_'
  }

  function SanitizeChar(c: char): char {
    LowerChar(if Kept(c) then c else '-')
  }

  /** `globalId.replace(/[^a-z0-9-_]/gi, "-").toLowerCase()`. Only ASCII survives the
      replacement, so the ASCII lower-casing is exact here. */
  function IdPart(globalId: string): string {
    ToLower(seq(|globalId|, i requires 0 <= i < |globalId| => if Kept(globalId[i]) then globalId[i] else '-'))
  }

  /** The name suffix is as long as the global id and holds only lower-case letters, digits, '-'
      and '_': each kept character lower-cased, every other one a '-'. */
  lemma IdPartShape(globalId: string)
    ensures var p := IdPart(globalId);
      && |p| == |globalId|
      && (forall i :: 0 <= i < |p| ==> NameChar(p[i]))
      && (forall i :: 0 <= i < |p| ==> p[i] == SanitizeChar(globalId[i]))
      && (forall i :: 0 <= i < |p| ==> (p[i] == '-' <==> !Kept(globalId[i]) || globalId[i] == '-'))
  {
  }

  /** A suffix that is already sanitised is its own sanitisation. */
  lemma IdPartIdempotent(globalId: string)
    ensures IdPart(IdPart(globalId)) == IdPart(globalId)
  {
    IdPartShape(globalId);
    var p := IdPart(globalId);
    IdPartShape(p);
  }

  function FileFormat(filename: string): string {
    UpperExtension(filename, "FILE")
  }

  function FileResource(source: string, f: DataFile): Resource {
    SimpleResource(Some(f.filename), Some(source + "/api/access/datafile/" + NatToString(f.id)), Some(FileFormat(f.filename)))
  }

  function FileResources(source: string, files: seq<DataFile>): (rs: seq<Resource>)
    ensures |rs| == |files|
    ensures forall i :: 0 <= i < |files| ==> rs[i] == FileResource(source, files[i])
  {
    seq(|files|, i requires 0 <= i < |files| => FileResource(source, files[i]))
  }

  /** `version.files || []`. */
  function Files(ds: DataverseDataset): seq<DataFile> {
    if ds.files.Some? then ds.files.value else []
  }

  const ExtraKeys: seq<string> :=
    ["Source URL", "Global ID", "Last Harvested At", "Version", "Version State", "Version History URL", "Publisher", "DOI"]

  /** `${majorVersion}.${minorVersion}`. */
  function VersionText(ds: DataverseDataset): string {
    NatToString(ds.majorVersion) + "." + NatToString(ds.minorVersion)
  }

  /** The value of each extra, in the order of `ExtraKeys`. */
  function ExtraValues(source: string, now: string, ds: DataverseDataset): seq<string> {
    [ds.url, ds.globalId, now, VersionText(ds), ds.versionState,
     source + "/dataset.xhtml?persistentId=" + ds.globalId, ds.publisher, ds.globalId]
  }

  /** `DataverseHarvester.mapSourceDatasetToTarget(ds)`; `source` is the configured source URL and
      `now` the ISO timestamp of the harvest. */
  method MapSourceDatasetToTarget(mainOrg: string, source: string, now: string, ds: DataverseDataset)
    returns (d: Dataset)
    ensures d.ownerOrg == mainOrg && d.name == TargetName(mainOrg, IdPart(ds.globalId)) && d.title == ds.name
    ensures d.notes == OrStr(ds.description, "No description") && d.language == "EN" && d.author == ds.author
    ensures d.resources == FileResources(source, Files(ds))
    ensures d.tags == OptionalTags(ds.keywords)
    ensures d.extras.Some? && |d.extras.value| == |ExtraKeys|
    ensures forall i :: 0 <= i < |ExtraKeys| ==>
              d.extras.value[i] == Extra(ExtraKeys[i], ExtraValues(source, now, ds)[i])
  {
    var resources: seq<Resource> := [];
    var files := Files(ds);
    for k := 0 to |files|
      invariant resources == FileResources(source, files[..k])
    {
      var df := files[k];
      resources := resources + [SimpleResource(Some(df.filename), Some(source + "/api/access/datafile/" + NatToString(df.id)),
                                               Some(UpperExtension(df.filename, "FILE")))];
    }
    assert files[..|files|] == files;
    var extras: seq<Extra> := [];
    extras := extras + [Extra("Source URL", ds.url)];
    extras := extras + [Extra("Global ID", ds.globalId)];
    extras := extras + [Extra("Last Harvested At", now)];
    extras := extras + [Extra("Version", NatToString(ds.majorVersion) + "." + NatToString(ds.minorVersion))];
    extras := extras + [Extra("Version State", ds.versionState)];
    extras := extras + [Extra("Version History URL", source + "/dataset.xhtml?persistentId=" + ds.globalId)];
    extras := extras + [Extra("Publisher", ds.publisher)];
    extras := extras + [Extra("DOI", ds.globalId)];
    d := Dataset(mainOrg, TargetName(mainOrg, IdPart(ds.globalId)), ds.name, OrStr(ds.description, "No description"), "EN",
                 resources, OptionalTags(ds.keywords), Some(extras), ds.author, None, None, None, None, None, None);
  }

  /** The extra keys are pairwise distinct, so each extra is found by its key. */
  lemma ExtraKeysDistinct()
    ensures forall i, j :: 0 <= i < j < |ExtraKeys| ==> ExtraKeys[i] != ExtraKeys[j]
  {
    // the keys differ in their first letter, except the three that start with 'V'
    assert ExtraKeys[0][0] == 'S' && ExtraKeys[1][0] == 'G' && ExtraKeys[2][0] == 'L' && ExtraKeys[6][0] == 'P';
    assert ExtraKeys[7][0] == 'D';
    assert |ExtraKeys[3]| == 7 && |ExtraKeys[4]| == 13 && |ExtraKeys[5]| == 19;
    assert ExtraKeys[3][0] == 'V' && ExtraKeys[4][0] == 'V' && ExtraKeys[5][0] == 'V';
  }

  /** The Version extra is the two version numbers joined by a single dot, which can be read back. */
  lemma VersionTextReadable(a: DataverseDataset, b: DataverseDataset)
    requires VersionText(a) == VersionText(b)
    ensures a.majorVersion == b.majorVersion && a.minorVersion == b.minorVersion
  {
    VersionTextSplits(a);
    VersionTextSplits(b);
    NatToStringInjective(a.majorVersion, b.majorVersion);
    NatToStringInjective(a.minorVersion, b.minorVersion);
  }

  /** Splitting the Version extra at '.' gives the two numbers back, since digits hold no dot. */
  lemma VersionTextSplits(ds: DataverseDataset)
    ensures Split(VersionText(ds), '.') == [NatToString(ds.majorVersion), NatToString(ds.minorVersion)]
  {
    var m, n := NatToString(ds.majorVersion), NatToString(ds.minorVersion);
    assert forall i :: 0 <= i < |m| ==> m[i] != '.';
    assert forall i :: 0 <= i < |n| ==> n[i] != '.';
    SplitAppend(m, n, '.');
    SplitSingle(m, '.');
    SplitSingle(n, '.');
  }

  /** Every resource is downloadable through the access API and carries a non-empty format. */
  lemma ResourcesShape(source: string, ds: DataverseDataset)
    ensures var rs := FileResources(source, Files(ds));
      forall i :: 0 <= i < |rs| ==>
        && rs[i].name == Some(Files(ds)[i].filename)
        && IsPrefix(source + "/api/access/datafile/", rs[i].url.value)
        && rs[i].format.Some? && rs[i].format.value != "" && '.' !in rs[i].format.value
  {
    var rs := FileResources(source, Files(ds));
    forall i | 0 <= i < |rs|
      ensures IsPrefix(source + "/api/access/datafile/", rs[i].url.value)
      ensures rs[i].format.value != "" && '.' !in rs[i].format.value
    {
      var p := source + "/api/access/datafile/";
      assert rs[i].url.value == p + NatToString(Files(ds)[i].id);
      assert rs[i].url.value[..|p|] == p;
      UpperExtensionShape(Files(ds)[i].filename, "FILE");
    }
  }
}
