# lincolnshire-harvesterjs in Dafny

This project models the core of a TypeScript harvester. The harvester copies dataset
metadata from a source catalog into a PortalJS Cloud CKAN portal. The source can be CKAN,
the Lincolnshire CKAN portal, DKAN, Socrata, OpenDataSoft, Dataverse or ArcGIS Hub.

A harvest run works like this:
- It ensures that the main group exists.
- It fetches the source records.
- For each record, it ensures the record's organisations and groups exist. Each name is
  remembered for the rest of the run.
- It maps the record to a target dataset whose name is `<owner_org>--<source id>`.
- It upserts that dataset: it tries a create first and updates when the name is taken.
- Every remote call is wrapped in a retry with exponential back-off.

The project also models:
- the resource uploader, which builds the object key and public URL of a mirrored file;
- the script that patches each dataset's `source` with its source package URL;
- the generator that turns a ckanext-scheming schema into TypeScript interfaces.

Layout: one Dafny module per source file, plus three shared modules.
- `Js` holds the JavaScript semantics the code relies on: truthiness, `||`, `??`,
  `split`/`join`, `trim`, case mapping, `includes` and decimal rendering.
- `Json` holds `JSON.stringify` of strings, as section 7 of RFC 8259 describes string
  literals, together with a reader that inverts it.
- `Schema` holds the target dataset shapes and the identity name.

Modelling conventions:
- Remote services are values. An organisation or group registry is a set of names, and the
  target catalog is a map from name to dataset.
- Faults a request may meet are parameters.
- Clocks, random draws and uuids are parameters.
- Code that updates state step by step is imperative Dafny. The harvester is a class whose
  memo sets are fields. The loops of the Socrata, ODS, Dataverse and ArcGIS mappers, of
  `makeid`, `withRetry` and the patch script are methods proved against specification
  functions.
- Code that is a single expression is a function.

Facts about the harvester's code that the model keeps:
- In a dry run, `ensureOrganizationExists` and `ensureGroupExists` return before they read
  or write the memo sets (src/harvesters/base.ts:74-83 and 96-105). `Base.DryRunTouchesNothing`
  states this.
- Resources are never probed or deleted. The only storage operation is `uploadFile`
  (src/lib/resourceuploader.ts:35-79).
- The memo sets are plain `Set`s, checked and then added to around an awaited call
  (src/harvesters/base.ts:45-46 and 85-93). Jobs run one after the other here (see "Left out").

## Model

| member | source | states |
|---|---|---|
| Js.Split | src/lib/resourceuploader.ts:45-46 | `split` always yields at least one piece |
| Js.SplitJoin | src/lib/resourceuploader.ts:45-46 | joining the pieces of a split with the separator gives the input back |
| Js.SplitPiecesFree | src/lib/resourceuploader.ts:45-46 | no piece of a split contains the separator |
| Js.SplitSingle | src/lib/resourceuploader.ts:45-46 | a split has a single piece exactly when the input holds no separator, and that piece is the input |
| Js.SplitAppend | src/harvesters/dataverse.ts:55 | splitting `a + sep + b` splits the two sides independently |
| Js.JoinSplit | gen-schema.ts:42-51 | splitting separator-free pieces after joining them gives the pieces back |
| Js.LastPiece | src/harvesters/dataverse.ts:47 | `split(sep).pop()` is the text after the last separator, or the whole string when there is none |
| Js.FirstPiece | src/lib/resourceuploader.ts:46 | `split(sep)[0]` is the text before the first separator, or the whole string when there is none |
| Js.UpperExtensionShape | src/harvesters/dataverse.ts:47 | the `split(".").pop().toUpperCase() \|\| d` format holds no dot; it is empty only when the default is empty; it is the upper-cased extension when there is one |
| Js.TrimStart | src/lib/utils.ts:52 | the result is a suffix of the input with no leading white space, and only white space was dropped |
| Js.TrimEnd | src/lib/utils.ts:52 | the result is a prefix of the input with no trailing white space, and only white space was dropped |
| Js.Trim | src/lib/utils.ts:52 | `trim()` is a contiguous piece of its input with no white space at either end, and only white space was dropped before and after it |
| Js.TrimUnchanged | src/scripts/patchdataset.ts:49 | a string without white space at its ends is its own trim |
| Js.TrimIdempotent | src/lib/utils.ts:52 | trimming twice is trimming once |
| Js.ContainsAt | gen-schema.ts:33 | `includes(sub)` holds whenever `sub` occurs at some position |
| Js.ContainsWitness | gen-schema.ts:33 | when `includes(sub)` holds, `sub` occurs at some position |
| Js.NatToString | src/harvesters/dataverse.ts:46 | the decimal rendering of a number is a non-empty string of digits |
| Js.NatToStringValue | src/harvesters/dataverse.ts:46 | reading the digits back gives the number |
| Js.NatToStringInjective | src/harvesters/dataverse.ts:55 | two numbers render the same only when they are equal |
| Json.HexDigitValue | gen-schema.ts:29 | a hexadecimal digit written by the escaper reads back to its value |
| Json.EscapeCharThenRest | gen-schema.ts:29 | reading back one escaped character, whichever escape it takes, yields that character followed by the reading of the rest |
| Json.SimpleThenRest | gen-schema.ts:29 | a two-character escape reads back to the character it stands for |
| Json.ControlThenRest | gen-schema.ts:29 | a `\u00XX` escape of a control character reads back to that character |
| Json.EscapeRoundTrip | gen-schema.ts:29 | the escaped body of a JSON string reads back to the original text |
| Json.QuoteRoundTrip | gen-schema.ts:29 | `JSON.stringify` of a string is inverted by reading the literal back |
| Json.QuoteInjective | gen-schema.ts:29 | two strings quote the same only when they are equal, so distinct choice values stay distinct |
| Json.EscapeNoControl | gen-schema.ts:29 | an escaped text holds no control character |
| Json.QuoteNoNewline | gen-schema.ts:29 | a quoted choice value never breaks a line of the generated file |
| Schema.TargetNameInjective | src/harvesters/ckan.ts:25 | the name `<org>--<id>` determines the source id, so distinct records never share a target name |
| Schema.TagsOf | src/harvesters/socrata.ts:70 | `map((t) => ({ name: t }))` yields one tag per string, in order |
| Utils.Pow2 | src/lib/utils.ts:19 | `2 ** k` is at least 1 |
| Utils.Schedule | src/lib/utils.ts:19 | the sleep after the k-th failed attempt is `RETRY_BASE_MS * 2^(k-1)` |
| Utils.ScheduleTotal | src/lib/utils.ts:13-24 | the back-off before the n-th attempt adds up to `RETRY_BASE_MS * (2^(n-1) - 1)` |
| Utils.WithRetry | src/lib/utils.ts:7-26 | it makes between 1 and `max` calls (at least one, even when `max <= 1`); it returns the first call that does not throw; it rethrows the last error only after `max` calls; it sleeps the back-off schedule between calls |
| Utils.Capitalize | src/lib/utils.ts:28-29 | the first character is upper-cased, the rest is unchanged, and the length is kept |
| Utils.CapitalizeIdempotent | src/lib/utils.ts:28-29 | capitalising twice changes nothing more |
| Utils.BuildOrFq | src/lib/utils.ts:31-32 | the filter is `key:(` followed by the values joined with ` OR ` and a closing parenthesis |
| Utils.JoinSnoc | src/lib/utils.ts:31-32 | adding a value adds one ` OR ` alternative at the end |
| Utils.MapLanguage | src/lib/utils.ts:50-54 | the result is always one of EN, FR, ES, DE, IT; it is the trimmed, upper-cased code when that is supported, and EN otherwise, a missing code included |
| Utils.SupportedNormal | src/lib/utils.ts:51-53 | a supported code is already trimmed and upper-cased |
| Utils.MapLanguageIdempotent | src/lib/utils.ts:50-54 | mapping an already mapped language changes nothing |
| Lcc.ShowThenCreate | src/lib/lcc.ts:10-43 | a show request comes first; a create follows exactly when the show throws; a success leaves the name registered; a failed create rethrows and registers nothing |
| Lcc.EnsureOrganizationExists | src/lib/lcc.ts:10-43 | an existing organisation costs one `organization_show` and nothing else; otherwise `organization_create` is sent with the organisation as payload |
| Lcc.EnsureGroupExists | src/lib/lcc.ts:45-70 | the same show-then-create protocol with `group_show` and `group_create` |
| Lcc.EnsureMainGroupExists | src/lib/lcc.ts:72-79 | the main group is ensured with its name as title, the fixed description, and the main user as its only admin |
| Lcc.EnsureTwice | src/lib/lcc.ts:10-70 | after an ensure has returned, a fault-free ensure of the same name finds it and creates nothing |
| Lcc.EnsureWithoutFaults | src/lib/lcc.ts:10-70 | without faults an ensure returns, and it creates exactly when the name is missing |
| PortalJsCloud.UpsertDataset | src/lib/portaljs-cloud.ts:35-77 | a nameless dataset throws with no request; a dry run returns the dataset with no request; otherwise a create is sent; an update follows only on a `CkanRequestError` whose message says the URL is in use; any other error is rethrown unchanged, and a throw leaves the catalog as it was |
| PortalJsCloud.UrlInUseIsConflict | src/lib/portaljs-cloud.ts:55-58 | the error CKAN gives for a taken name is recognised as a conflict |
| PortalJsCloud.UpsertTwice | src/lib/portaljs-cloud.ts:52-76 | upserting the same new dataset twice gives a create, then a conflicting create and an update, never two successful creates |
| PortalJsCloud.UpsertWithoutFaults | src/lib/portaljs-cloud.ts:52-76 | without faults a named dataset always lands in the catalog; two requests are sent exactly when it was already there |
| PortalJsCloud.GetDatasetList | src/lib/portaljs-cloud.ts:12-19 | one name per dataset of the organisation, in order |
| ResourceUploader.CharFor | src/lib/resourceuploader.ts:18 | each draw picks a letter or digit of the alphabet |
| ResourceUploader.UpperLettersAlnum | src/lib/resourceuploader.ts:13-14 | the first 26 characters of the alphabet are upper-case letters |
| ResourceUploader.LowerLettersAlnum | src/lib/resourceuploader.ts:13-14 | the next 26 are lower-case letters |
| ResourceUploader.DecimalDigitsAlnum | src/lib/resourceuploader.ts:13-14 | the last 10 are digits |
| ResourceUploader.AlphabetAlnum | src/lib/resourceuploader.ts:13-15 | the alphabet holds 62 ASCII letters and digits and nothing else |
| ResourceUploader.IdFromDraws | src/lib/resourceuploader.ts:11-22 | one alphanumeric character per draw |
| ResourceUploader.MakeId | src/lib/resourceuploader.ts:11-22 | `makeid(n)` returns n alphanumeric characters, or none for a negative n, one per draw in order |
| ResourceUploader.StripTrailingSlashes | src/lib/resourceuploader.ts:38 | the path keeps its prefix and loses its trailing slashes |
| ResourceUploader.BasenameSegment | src/lib/resourceuploader.ts:38 | the basename is slash-free, and a slash-free path is its own basename |
| ResourceUploader.FileName | src/lib/resourceuploader.ts:38 | the file name is never empty and slash-free; it is the basename, or `file-<now>` when the basename is empty |
| ResourceUploader.ExtensionShape | src/lib/resourceuploader.ts:45 | the extension is never empty and holds no dot; a non-empty text after the last dot is the extension; a dot-free name is its own extension; `bin` when the name ends with a dot |
| ResourceUploader.StemShape | src/lib/resourceuploader.ts:46 | the stem is never empty and holds no dot; a non-empty text before the first dot is the stem; a dot-free name is its own stem; `unnamed` when the name starts with a dot |
| ResourceUploader.PartsSlashFree | src/lib/resourceuploader.ts:45-46 | a slash-free file name gives a slash-free stem and extension |
| ResourceUploader.SplitThree | src/lib/resourceuploader.ts:50 | three separator-free parts joined by the separator split back into those parts |
| ResourceUploader.FullKeySegments | src/lib/resourceuploader.ts:42-50 | the key has exactly three path segments: `resources`, the uuid, and `<stem>-<suffix>.<extension>` |
| ResourceUploader.PublicUrl | src/lib/resourceuploader.ts:76 | the public URL starts with the configured base and `/` and ends with `/` and the key |
| ResourceUploader.ContentType | src/lib/resourceuploader.ts:59-60 | the response's content type when it is truthy, `application/octet-stream` otherwise |
| ResourceUploader.UploadAttempt | src/lib/resourceuploader.ts:35-79 | an unparseable URL throws "Invalid URL"; a failed transfer throws its error; a parseable URL with a clean transfer succeeds; a success stores under the full key built from the file name and six drawn characters and returns the public URL of that key |
| ResourceUploader.Outcomes | src/lib/resourceuploader.ts:35-79 | the outcome of each run of the retried body, run by run |
| ResourceUploader.UploadFile | src/lib/resourceuploader.ts:34-80 | the body is retried by `withRetry`: the result is the first run that does not throw, within the attempt limit, and its key is made from that run's uuid, clock and draws |
| Base.MinTime | src/harvesters/base.ts:133 | `ceil(1000 / max(1, rps))`, between 1 and 1000 ms |
| Base.MaxConcurrent | src/harvesters/base.ts:134 | `max(1, concurrency)` |
| Base.OrganizationCalls | src/harvesters/base.ts:150-152 | one ensure per organisation, in order |
| Base.GroupCalls | src/harvesters/base.ts:154-156 | one ensure per group, in order |
| Base.EnsureCalls | src/harvesters/base.ts:146-157 | a job's ensures are all organisation or group ensures |
| Base.RunJobs | src/harvesters/base.ts:141-175 | every job counts either as an upsert or as a failure |
| Base.Remote.Send | src/lib/utils.ts:7-26 | a retried call is logged, and it throws exactly when the remote side fails it |
| Base.BaseHarvester.constructor | src/harvesters/base.ts:45-50 | a harvester starts with empty memo sets |
| Base.BaseHarvester.UpsertIntoTarget | src/harvesters/base.ts:64-69 | the catalog's upsert with the harvester's dry-run flag: a dry run sends nothing; a success returns the dataset |
| Base.BaseHarvester.EnsureOrganizationExists | src/harvesters/base.ts:71-94 | a dry run or a remembered name makes no call and changes nothing; otherwise one retried call is made, and the name is remembered only when it returns |
| Base.BaseHarvester.EnsureGroupExists | src/harvesters/base.ts:96-117 | the same for groups, with the group memo set |
| Base.BaseHarvester.EnsureOrganizations | src/harvesters/base.ts:150-152 | the organisations are ensured in order, stopping at the first that throws |
| Base.BaseHarvester.EnsureGroups | src/harvesters/base.ts:154-156 | the groups are ensured in order, stopping at the first that throws |
| Base.BaseHarvester.RunJob | src/harvesters/base.ts:144-173 | a job ensures its organisations, then its groups, maps the record and upserts it; any throw lands in the catch |
| Base.BaseHarvester.Run | src/harvesters/base.ts:119-181 | outside a dry run the main group is ensured first; a throw there rejects the run; otherwise every job runs and `total` equals the number of records, split into upserts and failures |
| Base.EnsureAllStops | src/harvesters/base.ts:150-156 | once an ensure throws, the rest of the list is not tried |
| Base.EnsureAllAppend | src/harvesters/base.ts:150-156 | ensuring organisations and then groups is ensuring their concatenation |
| Base.RunJobsExtends | src/harvesters/base.ts:141-175 | a run only appends to the log of remote calls |
| Base.DryRunTouchesNothing | src/harvesters/base.ts:74-83 | a dry run makes no remote call and leaves both memo sets as they were |
| Base.DryRunEnsureAll | src/harvesters/base.ts:97-106 | in a dry run every ensure returns without effect |
| Base.EnsureAllWithoutFailures | src/harvesters/base.ts:150-156 | without failing calls every ensure returns |
| Base.FaultFreeUpserts | src/harvesters/base.ts:141-175 | when no remote call fails, exactly the records whose mapping yields a named dataset are upserted and the others fail, in a dry run too |
| Base.SucceededSnoc | src/harvesters/base.ts:93 | one more logged call adds its name to the returned names exactly when it is an ensure that returned |
| Base.MemoExactInitially | src/harvesters/base.ts:45-46 | the memo invariant holds for a fresh harvester |
| Base.EnsureKeepsMemoExact | src/harvesters/base.ts:85-93 | an ensure keeps the memo sets equal to the names whose ensure returned, and no name is ensured again after it returned |
| Base.EnsureAllKeepsMemoExact | src/harvesters/base.ts:150-156 | so do the ensure loops |
| Base.OtherCallKeepsMemoExact | src/harvesters/base.ts:161-167 | an upsert or the main-group call keeps the memo invariant |
| Base.RunKeepsMemoExact | src/harvesters/base.ts:141-175 | every run keeps the memo sets exact and never repeats a returned ensure |
| Base.EnsureAllExtends | src/harvesters/base.ts:150-156 | the ensure loops only append to the log, and only ensure calls |
| Base.JobStaged | src/harvesters/base.ts:144-173 | within a job, the calls go organisations, then groups, then the upsert |
| Base.EnsureAllOrdered | src/harvesters/base.ts:150-156 | a job's organisation ensures come before its group ensures |
| Base.EnsureAllMonotone | src/harvesters/base.ts:150-156 | a list whose stages rise gives a log whose stages rise |
| CkanHarvester.MapSourceDatasetToTarget | src/harvesters/ckan.ts:21-36 | the target is named `<main org>--<package name>`; it keeps the title; notes fall back to "no description" and language to EN; there is one `{ name, url, format }` resource per source resource, in order; no tags or extras |
| CkanHarvester.MappingKeepsIdentity | src/harvesters/ckan.ts:21-36 | the mapped dataset links exactly the source's resource URLs in order, and two packages map to the same name only when their names are equal |
| LincolnshireHarvester.Defined | src/harvesters/lincolnshire.ts:59-64 | filtering the entries keeps at most all of them |
| LincolnshireHarvester.DefinedFour | src/harvesters/lincolnshire.ts:59-64 | the four extra fields are kept exactly when defined, in order |
| LincolnshireHarvester.DefinedCons | src/harvesters/lincolnshire.ts:59-64 | the filter treats the first entry independently of the rest |
| LincolnshireHarvester.Extras | src/harvesters/lincolnshire.ts:43-64 | created, modified, groups and organisation extras, each present exactly when defined, in that order |
| LincolnshireHarvester.ExtrasEncoded | src/harvesters/lincolnshire.ts:46-55 | the groups extra is a JSON array present exactly when there are groups; the organisation extra is a JSON object present exactly when there is an organisation |
| LincolnshireHarvester.EntityTitle | src/harvesters/lincolnshire.ts:46-55 | a group or organisation is serialised with its name and `title \|\| display_name` |
| LincolnshireHarvester.TagName | src/harvesters/lincolnshire.ts:23 | the tag name is `display_name` when truthy, `name` otherwise |
| LincolnshireHarvester.MapSourceDatasetToTarget | src/harvesters/lincolnshire.ts:14-67 | the mapping keeps the identity name, title, licence, version and author; it has tags exactly when the package has them; rights are always the OGL v3.0; there is one resource per source resource carrying its `last_modified`; the extras are as above |
| LincolnshireHarvester.KeysAppend | src/harvesters/lincolnshire.ts:59-64 | the keys of concatenated extras are the concatenated keys |
| LincolnshireHarvester.ExtrasKeys | src/harvesters/lincolnshire.ts:43-64 | each extra key is one of the four harvested keys; no key is repeated; a key is present exactly when its value is defined |
| LincolnshireHarvester.FourKeys | src/harvesters/lincolnshire.ts:59-64 | four optional extras with pairwise distinct keys give a key list with no repeats, in which each key appears exactly when its value is defined |
| LincolnshireHarvester.KeyIfDefined | src/harvesters/lincolnshire.ts:60 | an undefined value contributes no key |
| LincolnshireHarvester.KeysDistinct | src/harvesters/lincolnshire.ts:43-56 | the four harvested keys are pairwise distinct |
| DkanHarvester.ResourceUrl | src/harvesters/dkan.ts:77 | `downloadURL`, else `accessURL`, else the empty string |
| DkanHarvester.ResourceFormat | src/harvesters/dkan.ts:78 | `format`, else `mediaType`, else "unknown"; never empty |
| DkanHarvester.MapResource | src/harvesters/dkan.ts:75-80 | the resource carries an id exactly when `identifier` is truthy |
| DkanHarvester.MapSourceDatasetToTarget | src/harvesters/dkan.ts:67-83 | the target is named after the dataset identifier, with one resource per distribution, in order |
| DkanHarvester.ResourcesComplete | src/harvesters/dkan.ts:67-83 | every mapped resource has a URL and a non-empty format, and has an id exactly when its source does |
| SocrataHarvester.AttachmentResources | src/harvesters/socrata.ts:27-38 | one resource per attachment, in order |
| SocrataHarvester.MapSourceDatasetToTarget | src/harvesters/socrata.ts:21-73 | the pushing loops yield the attachments, then the CSV export of a tabular view, and the extras; the name, title, notes, author and tags are mapped as written |
| SocrataHarvester.ResourcesShape | src/harvesters/socrata.ts:27-46 | one resource per attachment in order, named `name ?? filename`; the CSV export comes last exactly for a tabular view; every resource has a URL and no format |
| SocrataHarvester.AttachmentUrlShape | src/harvesters/socrata.ts:29-33 | the attachment URL is an API URL of the source: the view's file endpoint when there is an asset id, the asset endpoint otherwise |
| SocrataHarvester.ExtrasShape | src/harvesters/socrata.ts:49-60 | the source URL `<source>/d/<id>` and the harvest time, in that order, then the category exactly when it is truthy |
| OdsHarvester.ExportResources | src/harvesters/ods.ts:43-49 | one export link per format, in order |
| OdsHarvester.AttachmentResources | src/harvesters/ods.ts:52-58 | one resource per attachment, in order, knowing its position |
| OdsHarvester.ThemePieces | src/harvesters/ods.ts:69 | a theme splits into at least one tag name |
| OdsHarvester.ThemeNames | src/harvesters/ods.ts:68-70 | the flattened tag names are at least as many as the themes |
| OdsHarvester.TrimKeepsOut | src/harvesters/ods.ts:69 | trimming adds no character |
| OdsHarvester.ThemePiecesClean | src/harvesters/ods.ts:69 | each piece of a theme holds no comma and no white space at its ends |
| OdsHarvester.ThemeNamesClean | src/harvesters/ods.ts:68-70 | every tag name is free of commas and of white space at its ends |
| OdsHarvester.CleanAppend | src/harvesters/ods.ts:68-70 | clean tag lists stay clean when flattened together |
| OdsHarvester.ThemeWithoutComma | src/harvesters/ods.ts:69 | a theme without a comma becomes a single trimmed tag |
| OdsHarvester.MapSourceDatasetToTarget | src/harvesters/ods.ts:22-73 | it throws exactly when the default metadata is missing; otherwise the three exports then the attachments, tags from the themes, the language mapped to a supported code, and the source URL and harvest time extras |
| OdsHarvester.ExportsShape | src/harvesters/ods.ts:43-49 | CSV, JSON and XLSX exports in that order, each named `<title>: <FORMAT>` and linked to `/api/v2/catalog/datasets/<id>/exports/<format>` |
| OdsHarvester.ResourcesShape | src/harvesters/ods.ts:43-58 | the attachments follow the three exports, each in its position |
| OdsHarvester.AttachmentFormatShape | src/harvesters/ods.ts:56 | an attachment's format is never empty and holds no dot: "FILE" without a file name, otherwise the upper-cased extension or "FILE" |
| DataverseHarvester.IdPartShape | src/harvesters/dataverse.ts:66-68 | the name suffix is as long as the global id; it holds only name characters; each kept character is lower-cased and every other one becomes `-` |
| DataverseHarvester.IdPartIdempotent | src/harvesters/dataverse.ts:66-68 | sanitising a sanitised suffix changes nothing |
| DataverseHarvester.FileResources | src/harvesters/dataverse.ts:42-49 | one resource per file, in order |
| DataverseHarvester.MapSourceDatasetToTarget | src/harvesters/dataverse.ts:32-77 | the loop gives one access-API resource per file; then come the eight extras in the order of the code; the notes fall back to "No description" |
| DataverseHarvester.ExtraKeysDistinct | src/harvesters/dataverse.ts:52-62 | the eight extra keys are pairwise distinct |
| DataverseHarvester.VersionTextReadable | src/harvesters/dataverse.ts:55 | the Version extra determines both version numbers |
| DataverseHarvester.VersionTextSplits | src/harvesters/dataverse.ts:55 | splitting the Version extra at the dot gives the two numbers back |
| DataverseHarvester.ResourcesShape | src/harvesters/dataverse.ts:42-49 | every file resource is downloadable through the access API and has a non-empty, dot-free format |
| ArcgisLib.After | src/lib/arcgis.ts:59 | the text after a character is shorter than the input |
| ArcgisLib.PathnameClean | src/lib/arcgis.ts:59 | a URL's path holds no query and no fragment |
| ArcgisLib.AfterSuffix | src/lib/arcgis.ts:59 | the text after a character is a suffix of the input |
| ArcgisLib.FirstPieceKeepsOut | src/lib/arcgis.ts:59 | the first piece of a split adds no character |
| ArcgisLib.AfterKeepsOut | src/lib/arcgis.ts:59 | the text after a character adds no character |
| ArcgisLib.DetectFormat | src/lib/arcgis.ts:52-73 | an explicit type wins; without one, a missing URL gives "unknown" |
| ArcgisLib.KnownFormatsUpper | src/lib/arcgis.ts:61-67 | the known formats are the upper-cased known extensions |
| ArcgisLib.DetectFormatFromPath | src/lib/arcgis.ts:57-72 | without a type, a URL whose path does not parse or does not end in a known extension gives "unknown"; a known extension gives that extension upper-cased |
| ArcgisLib.DetectFormatRange | src/lib/arcgis.ts:57-72 | without a type the format is a known format or "unknown" |
| ArcgisLib.DetectKnownExtension | src/lib/arcgis.ts:59-67 | a path ending in a known extension, in any ASCII case, gives that format |
| ArcgisLib.DetectWithoutPathDot | src/lib/arcgis.ts:59-72 | a path without a dot gives "unknown", whatever dots the host holds |
| ArcgisLib.FeatureToDataset | src/lib/arcgis.ts:27-43 | each field is the first truthy of its candidates, in the order of the code: the url is `url`, else `landingPage`, else `serviceUrl`, else `homepage`; `raw` is the feature |
| ArcgisLib.FeatureFallbacks | src/lib/arcgis.ts:33-35 | the description and the type fall back in the same way |
| ArcgisLib.FeaturesToDatasets | src/lib/arcgis.ts:26-43 | one record per feature, in order |
| ArcgisHarvester.Collapse | src/harvesters/arcgis.ts:26 | the replacement leaves only name characters |
| ArcgisHarvester.CollapseKeepsNameChar | src/harvesters/arcgis.ts:26 | a name character is kept after whatever precedes it |
| ArcgisHarvester.CollapseRun | src/harvesters/arcgis.ts:26 | a maximal run of other characters becomes exactly one `-` |
| ArcgisHarvester.StripLeadingDashes | src/harvesters/arcgis.ts:27 | only leading dashes are removed, and no dash is left at the start |
| ArcgisHarvester.StripTrailingDashes | src/harvesters/arcgis.ts:27 | only trailing dashes are removed, and no dash is left at the end |
| ArcgisHarvester.IdPartClean | src/harvesters/arcgis.ts:24-27 | the identity part holds only lower-case letters, digits, `-` and `_`, and has no `-` at either end |
| ArcgisHarvester.StripDashesClean | src/harvesters/arcgis.ts:27 | stripping keeps name characters and removes the end dashes |
| ArcgisHarvester.CollapseKeeps | src/harvesters/arcgis.ts:26 | a string of name characters is left as it is |
| ArcgisHarvester.IdPartOfClean | src/harvesters/arcgis.ts:24-27 | a record whose name is already clean keeps that name |
| ArcgisHarvester.IdPartIdempotent | src/harvesters/arcgis.ts:24-27 | sanitising is idempotent |
| ArcgisHarvester.MapSourceDatasetToTarget | src/harvesters/arcgis.ts:21-76 | the record's own URL comes first; the link loop then adds each new truthy URL, and a `null` link ends the loop through the catch; name, title, notes, language and tags are mapped as written |
| ArcgisHarvester.ScanDistinct | src/harvesters/arcgis.ts:50-59 | the link loop keeps the URLs pairwise distinct and only appends |
| ArcgisHarvester.ScanUrls | src/harvesters/arcgis.ts:50-59 | the link loop lists exactly the URLs it started with plus the truthy link URLs it reaches |
| ArcgisHarvester.ResourcesDistinct | src/harvesters/arcgis.ts:31-63 | the mapped dataset never lists a URL twice, lists the record's own URL first when it has one, and lists no other URL |
| PatchDataset.Page | src/scripts/patchdataset.ts:15-23 | a page holds at most 100 packages, taken in order from the start offset |
| PatchDataset.FetchSourcePackages | src/scripts/patchdataset.ts:8-31 | the packages are a prefix of the catalog, with nothing reordered or repeated; it stops only when the catalog or the reported count is exhausted; a count that covers the catalog gives the whole catalog |
| PatchDataset.Decide | src/scripts/patchdataset.ts:44-64 | a package is patched exactly when its URL is not blank and its dataset exists at the destination; the payload's source is its URL |
| PatchDataset.Updated | src/scripts/patchdataset.ts:40-82 | at most one update per package |
| PatchDataset.PrefixStep | src/scripts/patchdataset.ts:43-82 | each package adds its decision to the count and the payloads |
| PatchDataset.PatchAll | src/scripts/patchdataset.ts:40-84 | `updated` counts the patched packages; `updated + skipped` are the packages handled; the payloads accepted are returned in order, leaving out the rejected one, none in a dry run; the loop stops early only at a patch that is rejected |
| PatchDataset.BlankUrlSkipped | src/scripts/patchdataset.ts:49-53 | a blank URL is skipped whether or not the dataset exists |
| PatchDataset.PayloadShape | src/scripts/patchdataset.ts:61-64 | the payload patches the dataset by its id, or by name when it has none, with the non-blank URL as its only source |
| PatchDataset.PayloadsCounted | src/scripts/patchdataset.ts:66-78 | as many payloads as packages counted as updated |
| GenSchema.ValidatorsOf | gen-schema.ts:32 | a list is kept, a truthy string becomes a one-element list, anything else an empty list |
| GenSchema.QuotedChoices | gen-schema.ts:29 | each choice value is quoted as a JSON string, in order |
| GenSchema.DatasetProps | gen-schema.ts:25-36 | one property line per dataset field, in order |
| GenSchema.ResourceProps | gen-schema.ts:38-40 | one optional string property per resource field, in order |
| GenSchema.Block | gen-schema.ts:44 | a joined list occupies at least one line |
| GenSchema.TsTypeShape | gen-schema.ts:26-30 | a field without choices is a string; an empty choice list gives the empty type; one choice gives its quoted value; the type never holds a newline |
| GenSchema.JoinNoChar | gen-schema.ts:29 | joining pieces without a character with a separator without it gives a text without it |
| GenSchema.RequiredByValidator | gen-schema.ts:32-33 | a field is required exactly when its validator mentions `not_empty` or `scheming_required`, whether given as a string or a one-element list |
| GenSchema.NotEmptyRequires | gen-schema.ts:33 | `not_empty` anywhere in a validator makes the field required |
| GenSchema.DatasetPropMarksOptional | gen-schema.ts:35 | a dataset property line is marked optional with `?` exactly when the field is not required |
| GenSchema.ContentSplitsIntoLines | gen-schema.ts:42-51 | split at newlines, the file gives back its lines: the header, one line per dataset field in order, the fixed lines, one line per resource field |
| GenSchema.ContentLinesNoNewline | gen-schema.ts:42-51 | no line of the file holds a newline when no field name does |
| GenSchema.HeaderNoNewline | gen-schema.ts:43 | the interface line holds no newline when the type name holds none |
| GenSchema.PropsNoNewline | gen-schema.ts:25-40 | no property line holds a newline when no field name does |
| GenSchema.TemplateNoNewline | gen-schema.ts:42-50 | the fixed lines of the template hold no newline |
| GenSchema.LinesNoNewline | gen-schema.ts:42-51 | concatenated newline-free line lists stay newline-free |
| GenSchema.ContentJoin | gen-schema.ts:42-51 | the file is its lines joined with newlines |
| GenSchema.TemplateJoin | gen-schema.ts:42-51 | the template literal is the join of its lines |
| GenSchema.JoinBlock | gen-schema.ts:44 | an empty list and its single empty line join the same |
| GenSchema.JoinFive | gen-schema.ts:42-51 | five line lists join as their joins separated by the separator |
| GenSchema.JoinAppend | gen-schema.ts:42-51 | joining two non-empty lists is joining each with a separator between them |

## Left out

- Network I/O, logging and `console` output are left out. Remote services are values: registry sets, a catalog map, the remote call log. Their faults are parameters.
- `getSourceDatasets` of every harvester is left out, together with the HTTP and pagination clients behind it in src/lib/ckan.ts, src/lib/dataverse.ts, src/lib/socrata.ts and src/lib/ods.ts. They are network clients. The run takes the fetched records as input. `getAllArcgisDatasets` is modelled only as the per-feature projection; its paging over `links.next` is network I/O.
- `getTargetPreexistingDatasets` is left out. It is unused by the run.
- config.ts, index.ts and src/harvesters/index.ts are left out. They hold environment loading, CLI bootstrapping and the registry of harvesters; their settings enter the model as parameters.
- `serializeError` and `sleep` in src/lib/utils.ts are left out. One formats a log line and the other only waits.
- Base.BaseHarvester.Run: the Bottleneck limiter, which runs up to `maxConcurrent` jobs spaced `minTime` apart, is not modelled. Jobs run one after the other in source order, and only the limiter's two parameters are computed. The interleavings concurrent jobs allow are not covered.
- Base.BaseHarvester.Run: the elapsed time reported by the summary is not modelled. It comes from the clock.
- Base.Remote.Send: each retried call is one step that either returns or throws after its retries. How `withRetry` reaches that outcome is modelled separately by Utils.WithRetry. The harvester's calls are not tied to the request protocol of Lcc and PortalJsCloud.
- Utils.WithRetry: the `console.warn` before each sleep is left out. The sleeps are returned as a list of durations.
- ResourceUploader.UploadAttempt: `new URL(fileUrl).pathname` is a parameter, `None` when the URL does not parse. Date.now, uuidv4 and Math.random are parameters too. The download and the S3 upload appear only as their outcome.
- ArcgisLib.DetectFormat: `new URL(url).pathname` is approximated. The scheme ends at the first `:`; the query and fragment are cut; the authority after `//` runs to the next `/`. Percent-encoding, dot segments, backslashes and host validation are not modelled. Neither is the stripping of leading and trailing spaces and of tab and newline characters. Special schemes such as `http` without `//` also parse differently: the model reads `http:a.csv` as path `a.csv` and gives "CSV", while the URL parser gives path `/` and "unknown".
- `toUpperCase` and `toLowerCase` are modelled on ASCII letters only. Other characters pass through unchanged, so special casings such as `ß` are not captured.
- JavaScript `null` and `undefined` are both the absent value `None`. Truthiness, `||`, `??` and the `!== undefined && !== null` filters treat them alike. Rendering does not, and the model renders `None` as `undefined`; the two lines below list where this differs.
- Js.Show: a template literal or `String()` gives "null" for `null`. This concerns `${att.filename}` and `${att.blobId}` in src/harvesters/socrata.ts:30-32, `${datasetTitle}` in src/harvesters/ods.ts:45 and `String(...)` in src/lib/arcgis.ts:30. The model writes "undefined" there.
- Json.Object: `JSON.stringify` writes a member whose value is `null` as `"title":null` and omits one whose value is `undefined`. The model omits both. This concerns the group and organisation titles of src/harvesters/lincolnshire.ts:46-55.
- Numeric ids and versions (Dataverse file ids and version numbers) are natural numbers. Their decimal rendering is exact.
- Strings are sequences of Unicode code points. JavaScript counts UTF-16 code units, so a character outside the Basic Multilingual Plane is one element in the model and two in the code.
- DataverseHarvester.IdPartShape: its length is in code points. The regular expression of src/harvesters/dataverse.ts:66-68 has no `u` flag and replaces each UTF-16 code unit, so the code turns one astral character into `--` where the model gives `-`.
- Base.MinTime, Base.MaxConcurrent and Utils.WithRetry take integer settings. In config.ts:20-23 `CONCURRENCY`, `RATE_LIMIT_RPS`, `RETRY_MAX_ATTEMPTS` and `RETRY_BASE_MS` are read with `z.coerce.number()` and may be fractional; fractional values are not modelled.
- OdsHarvester.ThemePieces: the regular expression `/\s*,\s*/` is not modelled as such. The split is a split at commas followed by `trim` of each piece. This gives the same pieces, because `\s` and `trim` remove the same white space characters.
- OdsHarvester.MapSourceDatasetToTarget: the throw when `metas.default` is missing is modelled as the result `None`.
- PortalJsCloud.UpsertDataset: the dataset the catalog returns from a create or update is modelled as the dataset sent.
- PatchDataset.FetchSourcePackages: the source catalog is modelled as a sequence served in 100-row slices that stay consistent across requests.
- PatchDataset.PatchAll: `getDatasetByName` is a lookup in a map of destination datasets. It is imported at src/scripts/patchdataset.ts:3, but src/lib/portaljs-cloud.ts does not define it, so it is not part of this model. The lookup is assumed never to throw. It is issued before the blank-URL test, so a throw would also reject packages with a blank URL.
- The dataset types under src/schemas are modelled only as far as the mappers read or write them.
