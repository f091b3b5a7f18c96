/** src/scripts/patchdataset.ts: a one-off script that copies each source CKAN package's `url`
    into the `source` list of the dataset harvested from it. It pages through the source catalog,
    then walks the packages, counting the ones it patches and the ones it skips. */
module PatchDataset {
  import opened Js
  import Schema

  /** `{ name, url }`, the projection of a source package. */
  datatype SourcePkg = SourcePkg(name: string, url: Option<string>)

  /** The source CKAN instance: its packages in search order, and the `count` it reports. */
  datatype SourceCatalog = SourceCatalog(packages: seq<SourcePkg>, count: Option<int>)

  /** The page size of the `package_search` requests. */
  const Rows: nat := 100

  /** `result.results` of `package_search?rows=100&start=<start>`. */
  function Page(source: SourceCatalog, start: nat): (items: seq<SourcePkg>)
    ensures |items| <= Rows
    ensures start < |source.packages| ==>
              |items| > 0 && start + |items| <= |source.packages| && items == source.packages[start..start + |items|]
    ensures start >= |source.packages| ==> items == []
  {
    if start >= |source.packages| then []
    else if start + Rows <= |source.packages| then source.packages[start..start + Rows]
    else source.packages[start..]
  }

  /** `result?.count || 0`. */
  function ReportedCount(source: SourceCatalog): int {
    if source.count.Some? then source.count.value else 0
  }

  /** `fetchSourcePackages()`: the pages, concatenated in order, until a page is empty or the
      next start reaches the reported count. */
  method FetchSourcePackages(source: SourceCatalog) returns (out: seq<SourcePkg>)
    // the packages are a prefix of the catalog: nothing reordered, skipped or repeated
    ensures |out| <= |source.packages| && out == source.packages[..|out|]
    // it stops only with the catalog exhausted or the reported count reached
    ensures |out| == |source.packages| || |out| >= ReportedCount(source)
    // and it asks for no page that starts at or past the count, the first page aside
    ensures |out| <= Rows || |out| < ReportedCount(source) + Rows
    // so a count that is at least the catalog size yields the whole catalog
    ensures ReportedCount(source) >= |source.packages| ==> out == source.packages
  {
    var start: nat := 0;
    out := [];
    while true
      invariant start <= |source.packages| && out == source.packages[..start]
      invariant start == 0 || start < ReportedCount(source)
      decreases |source.packages| - start
    {
      var items := Page(source, start);
      if |items| == 0 {
        break;
      }
      out := out + items;
      start := start + |items|;
      if start >= ReportedCount(source) {
        break;
      }
    }
  }

  /** The destination dataset `getDatasetByName` finds, reduced to its `id`. */
  datatype Dest = Dest(id: Option<string>)

  /** The body of a `package_patch` request. */
  datatype Payload = Payload(id: string, source: seq<string>)

  /** What the script does with one package. */
  datatype Action = Skip | Patch(payload: Payload)

  /** `!pkg.url || !pkg.url.trim()`. */
  predicate BlankUrl(url: Option<string>) {
    !Truthy(url) || Trim(url.value) == ""
  }

  /** The decision for one package, given the destination catalog by name. */
  function Decide(ownerOrg: string, dest: map<string, Dest>, pkg: SourcePkg): (a: Action)
    ensures a.Patch? <==> !BlankUrl(pkg.url) && Schema.TargetName(ownerOrg, pkg.name) in dest
    ensures a.Patch? ==> a.payload.source == [pkg.url.value]
  {
    var datasetName := Schema.TargetName(ownerOrg, pkg.name);
    if BlankUrl(pkg.url) then Skip
    else if datasetName !in dest then Skip
    else Patch(Payload(OrDefault(dest[datasetName].id, datasetName), if Truthy(pkg.url) then [pkg.url.value] else []))
  }

  /** The number of packages patched, dry run included, and their payloads. */
  function Updated(ownerOrg: string, dest: map<string, Dest>, pkgs: seq<SourcePkg>): (n: nat)
    ensures n <= |pkgs|
    decreases |pkgs|
  {
    if |pkgs| == 0 then 0
    else Updated(ownerOrg, dest, pkgs[..|pkgs| - 1]) + (if Decide(ownerOrg, dest, pkgs[|pkgs| - 1]).Patch? then 1 else 0)
  }

  function Payloads(ownerOrg: string, dest: map<string, Dest>, pkgs: seq<SourcePkg>): (ps: seq<Payload>)
    decreases |pkgs|
  {
    if |pkgs| == 0 then []
    else
      var a := Decide(ownerOrg, dest, pkgs[|pkgs| - 1]);
      Payloads(ownerOrg, dest, pkgs[..|pkgs| - 1]) + (if a.Patch? then [a.payload] else [])
  }

  /** One more package adds its decision to the count and to the payloads. */
  lemma PrefixStep(ownerOrg: string, dest: map<string, Dest>, pkgs: seq<SourcePkg>, k: nat)
    requires k < |pkgs|
    ensures var a := Decide(ownerOrg, dest, pkgs[k]);
      && Updated(ownerOrg, dest, pkgs[..k + 1]) == Updated(ownerOrg, dest, pkgs[..k]) + (if a.Patch? then 1 else 0)
      && Payloads(ownerOrg, dest, pkgs[..k + 1]) == Payloads(ownerOrg, dest, pkgs[..k]) + (if a.Patch? then [a.payload] else [])
  {
    assert pkgs[..k + 1][..k] == pkgs[..k];
  }

  /** The patch loop of `main()`. `rejected` holds the ids whose `package_patch` throws; such a
      throw ends the script, so `processed` tells how many packages were handled. Returns the
      payloads accepted, which leave out the one rejected `package_patch` that ended the run,
      and the two counters. */
  method PatchAll(ownerOrg: string, dryRun: bool, dest: map<string, Dest>, rejected: set<string>, pkgs: seq<SourcePkg>)
    returns (sent: seq<Payload>, updated: nat, skipped: nat, processed: nat)
    ensures processed <= |pkgs|
    ensures updated == Updated(ownerOrg, dest, pkgs[..processed])
    ensures updated + skipped == processed
    ensures sent == if dryRun then [] else Payloads(ownerOrg, dest, pkgs[..processed])
    // the run stops early only at a package whose patch is rejected, which never happens in a dry run
    ensures processed < |pkgs| ==>
              && !dryRun && Decide(ownerOrg, dest, pkgs[processed]).Patch?
              && Decide(ownerOrg, dest, pkgs[processed]).payload.id in rejected
    ensures forall i :: 0 <= i < |sent| ==> sent[i].id !in rejected
  {
    sent, updated, skipped := [], 0, 0;
    var k := 0;
    while k < |pkgs|
      invariant k <= |pkgs|
      invariant updated == Updated(ownerOrg, dest, pkgs[..k]) && updated + skipped == k
      invariant sent == if dryRun then [] else Payloads(ownerOrg, dest, pkgs[..k])
      invariant forall i :: 0 <= i < |sent| ==> sent[i].id !in rejected
    {
      var pkg := pkgs[k];
      PrefixStep(ownerOrg, dest, pkgs, k);
      ghost var action := Decide(ownerOrg, dest, pkg);
      var datasetName := Schema.TargetName(ownerOrg, pkg.name);
      var found := datasetName in dest;
      if !Truthy(pkg.url) || Trim(pkg.url.value) == "" {
        assert action == Skip;
        skipped := skipped + 1;
      } else if !found {
        assert action == Skip;
        skipped := skipped + 1;
      } else {
        var payload := Payload(OrDefault(dest[datasetName].id, datasetName), if Truthy(pkg.url) then [pkg.url.value] else []);
        assert action == Patch(payload);
        if dryRun {
          updated := updated + 1;
        } else {
          if payload.id in rejected {
            // `package_patch` throws and `main` rejects
            processed := k;
            return;
          }
          sent := sent + [payload];
          updated := updated + 1;
          assert sent == Payloads(ownerOrg, dest, pkgs[..k + 1]);
        }
      }
      k := k + 1;
    }
    processed := k;
    assert pkgs[..k] == pkgs;
  }

  /** A package with a missing or blank URL is skipped whether or not its dataset exists at the
      destination. */
  lemma BlankUrlSkipped(ownerOrg: string, dest: map<string, Dest>, pkg: SourcePkg)
    requires BlankUrl(pkg.url)
    ensures Decide(ownerOrg, dest, pkg) == Skip
    ensures Decide(ownerOrg, dest - {Schema.TargetName(ownerOrg, pkg.name)}, pkg) == Skip
  {
  }

  /** The payload patches the found dataset by its id, or by name when it has none, with the
      package's URL as its only source. */
  lemma PayloadShape(ownerOrg: string, dest: map<string, Dest>, pkg: SourcePkg)
    requires Decide(ownerOrg, dest, pkg).Patch?
    ensures var p := Decide(ownerOrg, dest, pkg).payload; var name := Schema.TargetName(ownerOrg, pkg.name);
      && (Truthy(dest[name].id) ==> p.id == dest[name].id.value)
      && (!Truthy(dest[name].id) ==> p.id == name)
      && p.source == [pkg.url.value] && Trim(p.source[0]) != ""
  {
  }

  /** Every payload sent corresponds to a patched package: there are as many payloads as
      packages counted as updated. */
  lemma {:induction false} PayloadsCounted(ownerOrg: string, dest: map<string, Dest>, pkgs: seq<SourcePkg>)
    ensures |Payloads(ownerOrg, dest, pkgs)| == Updated(ownerOrg, dest, pkgs)
    decreases |pkgs|
  {
    if |pkgs| > 0 {
      PayloadsCounted(ownerOrg, dest, pkgs[..|pkgs| - 1]);
    }
  }
}
