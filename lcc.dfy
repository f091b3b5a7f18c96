/** src/lib/lcc.ts: show-then-create provisioning of organisations and groups in the target
    catalog. The catalog's registry of names is a set; the faults a request meets are
    parameters, so every outcome the network can produce is covered. */
module Lcc {
  import opened Js

  datatype GroupRef = GroupRef(name: string)

  datatype User = User(name: string, capacity: string)

  datatype CkanOrganization = CkanOrganization(
    name: string, title: Option<string>, description: Option<string>, groups: Option<seq<GroupRef>>)

  datatype CkanGroup = CkanGroup(
    name: string, title: Option<string>, description: Option<string>, groups: Option<seq<GroupRef>>,
    users: Option<seq<User>>)

  /** The requests the catalog receives, with the payload exactly as sent. */
  datatype Request =
    | OrganizationShow(id: string)
    | OrganizationCreate(org: CkanOrganization)
    | GroupShow(id: string)
    | GroupCreate(group: CkanGroup)

  /** Transient faults for one ensure call: `Some(e)` makes that request throw `e`. */
  datatype Faults = Faults(show: Option<Exception>, create: Option<Exception>)

  /** The catalog's registry afterwards, the requests issued in order, and how the call settled. */
  datatype Ensured = Ensured(registry: set<string>, requests: seq<Request>, outcome: Result<()>)

  /** What a `*_show` request throws, if anything: an injected fault, or "not found". */
  function ShowError(registry: set<string>, name: string, fault: Option<Exception>): Option<Exception> {
    if fault.Some? then fault
    else if name in registry then None
    else Some(CkanRequestError("Not found"))
  }

  /** What a `*_create` request throws, if anything: an injected fault, or a name clash. */
  function CreateError(registry: set<string>, name: string, fault: Option<Exception>): Option<Exception> {
    if fault.Some? then fault
    else if name in registry then Some(CkanRequestError("Group name already exists in database"))
    else None
  }

  /** The shared show-then-create step: `show` and `create` are the two possible requests. */
  function ShowThenCreate(registry: set<string>, name: string, show: Request, create: Request, faults: Faults): (r: Ensured)
    ensures |r.requests| >= 1 && r.requests[0] == show
    ensures ShowError(registry, name, faults.show).None? <==> r.requests == [show]
    ensures ShowError(registry, name, faults.show).Some? <==> r.requests == [show, create]
    ensures r.outcome.Ok? ==> name in r.registry
    ensures r.outcome.Throw? ==> r.registry == registry && |r.requests| == 2
                                 && Some(r.outcome.error) == CreateError(registry, name, faults.create)
    ensures r.registry == registry || r.registry == registry + {name}
  {
    if ShowError(registry, name, faults.show).None? then
      Ensured(registry, [show], Ok(()))
    else
      var failed := CreateError(registry, name, faults.create);
      if failed.None? then Ensured(registry + {name}, [show, create], Ok(()))
      else Ensured(registry, [show, create], Throw(failed.value))
  }

  /** `ensureOrganizationExists(org)` against the registry of organisation names. */
  function EnsureOrganizationExists(registry: set<string>, org: CkanOrganization, faults: Faults): (r: Ensured)
    ensures |r.requests| >= 1 && r.requests[0] == OrganizationShow(org.name)
    ensures faults.show.None? && org.name in registry ==> r == Ensured(registry, [OrganizationShow(org.name)], Ok(()))
    ensures (faults.show.Some? || org.name !in registry) ==>
              r.requests == [OrganizationShow(org.name), OrganizationCreate(org)]
    ensures r.outcome.Ok? ==> org.name in r.registry
    ensures r.outcome.Throw? ==> r.registry == registry
  {
    ShowThenCreate(registry, org.name, OrganizationShow(org.name), OrganizationCreate(org), faults)
  }

  /** `ensureGroupExists(group)` against the registry of group names. */
  function EnsureGroupExists(registry: set<string>, group: CkanGroup, faults: Faults): (r: Ensured)
    ensures |r.requests| >= 1 && r.requests[0] == GroupShow(group.name)
    ensures faults.show.None? && group.name in registry ==> r == Ensured(registry, [GroupShow(group.name)], Ok(()))
    ensures (faults.show.Some? || group.name !in registry) ==>
              r.requests == [GroupShow(group.name), GroupCreate(group)]
    ensures r.outcome.Ok? ==> group.name in r.registry
    ensures r.outcome.Throw? ==> r.registry == registry
  {
    ShowThenCreate(registry, group.name, GroupShow(group.name), GroupCreate(group), faults)
  }

  const MainGroupDescription: string := "Main parent group for harvested datasets"

  /** The group `ensureMainGroupExists` provisions. */
  function MainGroup(mainGroup: string, mainUser: string): CkanGroup {
    CkanGroup(mainGroup, Some(mainGroup), Some(MainGroupDescription), None, Some([User(mainUser, "admin")]))
  }

  /** `ensureMainGroupExists()`: the main group, administered by the main user alone. */
  function EnsureMainGroupExists(registry: set<string>, mainGroup: string, mainUser: string, faults: Faults): (r: Ensured)
    ensures |r.requests| >= 1 && r.requests[0] == GroupShow(mainGroup)
    ensures |r.requests| == 2 ==> (
              && r.requests[1].GroupCreate?
              && var g := r.requests[1].group;
              && g.name == mainGroup && g.title == Some(mainGroup)
              && g.description == Some(MainGroupDescription)
              && g.users == Some([User(mainUser, "admin")]))
    ensures r.outcome.Ok? ==> mainGroup in r.registry
  {
    EnsureGroupExists(registry, MainGroup(mainGroup, mainUser), faults)
  }

  const NoFaults := Faults(None, None)

  /** Ensuring is idempotent: once an ensure has returned, a fault-free ensure of the same
      name finds it and creates nothing. */
  lemma EnsureTwice(registry: set<string>, name: string, show: Request, create: Request, first: Faults)
    requires ShowThenCreate(registry, name, show, create, first).outcome.Ok?
    ensures var again := ShowThenCreate(ShowThenCreate(registry, name, show, create, first).registry, name, show, create, NoFaults);
      again.requests == [show] && again.outcome.Ok?
      && again.registry == ShowThenCreate(registry, name, show, create, first).registry
  {
  }

  /** Without faults an ensure always returns normally, and it creates only what is missing. */
  lemma EnsureWithoutFaults(registry: set<string>, name: string, show: Request, create: Request)
    ensures var r := ShowThenCreate(registry, name, show, create, NoFaults);
      r.outcome.Ok? && r.registry == registry + {name} && (|r.requests| == 2 <==> name !in registry)
  {
  }
}
