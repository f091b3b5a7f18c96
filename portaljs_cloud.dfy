/** src/lib/portaljs-cloud.ts: the create-then-update-on-conflict upsert of a dataset into the
    target catalog, and the name listing of the main organisation's datasets. The catalog is a
    map from dataset name to dataset; injected faults stand for every other failure. */
module PortalJsCloud {
  import opened Js
  import opened Schema

  /** The write requests the catalog receives. */
  datatype Request = CreateDataset(dataset: Dataset) | UpdateDataset(dataset: Dataset)

  /** Transient faults: `Some(e)` makes that request throw `e`. */
  datatype Faults = Faults(create: Option<Exception>, update: Option<Exception>)

  /** The catalog afterwards, the write requests issued in order, and how the upsert settled. */
  datatype Upserted = Upserted(catalog: map<string, Dataset>, requests: seq<Request>, outcome: Result<Dataset>)

  const NameRequired: string := "Dataset must have a 'name' field."

  /** The message CKAN gives when a dataset name is taken. */
  const UrlInUse: string := "That URL is already in use."

  /** The conflict test of the upsert: a `CkanRequestError` whose message mentions the URL clash. */
  predicate IsConflict(e: Exception) {
    e.CkanRequestError? && Contains(e.message, "URL is already in use")
  }

  /** What `package_create` throws, if anything: an injected fault, or the name clash. */
  function CreateError(catalog: map<string, Dataset>, dataset: Dataset, fault: Option<Exception>): Option<Exception> {
    if fault.Some? then fault
    else if dataset.name in catalog then Some(CkanRequestError(UrlInUse))
    else None
  }

  /** What `package_update` throws, if anything: an injected fault, or a missing dataset. */
  function UpdateError(catalog: map<string, Dataset>, dataset: Dataset, fault: Option<Exception>): Option<Exception> {
    if fault.Some? then fault
    else if dataset.name !in catalog then Some(CkanRequestError("Not found"))
    else None
  }

  /** `upsertDataset({ dataset, dryRun })`. */
  function UpsertDataset(catalog: map<string, Dataset>, dataset: Dataset, dryRun: bool, faults: Faults): (r: Upserted)
    // a missing name is refused before anything else, in a dry run too
    ensures dataset.name == "" ==> r == Upserted(catalog, [], Throw(PlainError(NameRequired)))
    // a dry run hands the dataset back untouched and writes nothing
    ensures dataset.name != "" && dryRun ==> r == Upserted(catalog, [], Ok(dataset))
    // otherwise create is always tried first
    ensures dataset.name != "" && !dryRun ==> |r.requests| >= 1 && r.requests[0] == CreateDataset(dataset)
    // an update follows exactly when create failed with the conflict error
    ensures dataset.name != "" && !dryRun ==>
              ((r.requests == [CreateDataset(dataset), UpdateDataset(dataset)])
               <==> (var e := CreateError(catalog, dataset, faults.create); e.Some? && IsConflict(e.value)))
    // any other create error is rethrown as it is
    ensures (dataset.name != "" && !dryRun && CreateError(catalog, dataset, faults.create).Some?
             && !IsConflict(CreateError(catalog, dataset, faults.create).value))
            ==> r.outcome == Throw(CreateError(catalog, dataset, faults.create).value) && r.catalog == catalog
    // an update error is rethrown as it is
    ensures (|r.requests| == 2 && UpdateError(catalog, dataset, faults.update).Some?)
            ==> r.outcome == Throw(UpdateError(catalog, dataset, faults.update).value) && r.catalog == catalog
    // whenever the upsert returns, the catalog holds the dataset under its name
    ensures r.outcome.Ok? && !dryRun ==> dataset.name in r.catalog && r.catalog[dataset.name] == dataset
    ensures r.outcome.Throw? ==> r.catalog == catalog
  {
    if dataset.name == "" then
      Upserted(catalog, [], Throw(PlainError(NameRequired)))
    else if dryRun then
      Upserted(catalog, [], Ok(dataset))
    else
      var created := CreateError(catalog, dataset, faults.create);
      if created.None? then
        Upserted(catalog[dataset.name := dataset], [CreateDataset(dataset)], Ok(dataset))
      else if IsConflict(created.value) then
        var updated := UpdateError(catalog, dataset, faults.update);
        if updated.None? then
          Upserted(catalog[dataset.name := dataset], [CreateDataset(dataset), UpdateDataset(dataset)], Ok(dataset))
        else
          Upserted(catalog, [CreateDataset(dataset), UpdateDataset(dataset)], Throw(updated.value))
      else
        Upserted(catalog, [CreateDataset(dataset)], Throw(created.value))
  }

  const NoFaults := Faults(None, None)

  lemma UrlInUseIsConflict()
    ensures IsConflict(CkanRequestError(UrlInUse))
  {
    var clash := "URL is already in use";
    assert UrlInUse == "That " + clash + ".";
    assert UrlInUse[5..5 + |clash|] == clash;
    ContainsAt(UrlInUse, clash, 5);
  }

  /** Upserting the same dataset twice without faults yields a create, then a create that
      conflicts followed by an update, never two creates that succeed; both return the dataset. */
  lemma UpsertTwice(catalog: map<string, Dataset>, dataset: Dataset)
    requires dataset.name != "" && dataset.name !in catalog
    ensures var first := UpsertDataset(catalog, dataset, false, NoFaults);
      var second := UpsertDataset(first.catalog, dataset, false, NoFaults);
      && first.requests == [CreateDataset(dataset)] && first.outcome == Ok(dataset)
      && second.requests == [CreateDataset(dataset), UpdateDataset(dataset)] && second.outcome == Ok(dataset)
      && second.catalog == first.catalog
  {
    UrlInUseIsConflict();
  }

  /** Without faults, a named dataset always lands in the catalog, whether it was there or not. */
  lemma UpsertWithoutFaults(catalog: map<string, Dataset>, dataset: Dataset)
    ensures var r := UpsertDataset(catalog, dataset, false, NoFaults);
      dataset.name != "" ==>
        r.outcome == Ok(dataset) && r.catalog == catalog[dataset.name := dataset]
        && (|r.requests| == 2 <==> dataset.name in catalog)
  {
    UrlInUseIsConflict();
  }

  /** `getDatasetList()`: the names of the organisation's datasets, in the order listed. */
  function GetDatasetList(datasets: seq<Dataset>): (names: seq<string>)
    ensures |names| == |datasets|
    ensures forall i :: 0 <= i < |datasets| ==> names[i] == datasets[i].name
  {
    if |datasets| == 0 then [] else [datasets[0].name] + GetDatasetList(datasets[1..])
  }
}
