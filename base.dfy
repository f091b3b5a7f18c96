/** src/harvesters/base.ts: the harvest run. The harvester keeps, for one run, the names of the
    organisations and groups it has already ensured, and counts the jobs that upsert and the jobs
    that fail. Jobs run one after the other here.

    Every remote call the harvester makes is wrapped in `withRetry`; the model sends each such
    retried call once, in the order made, to a `Remote` that logs it and answers, through the
    set `failing` of positions in its log, which calls settle as a throw once `withRetry` gives
    up. */
module Base {
  import opened Js
  import opened Schema
  import Lcc
  import PortalJsCloud

  /** What `extractEntityMetadata` returns for a source record. */
  datatype EntityMetadata = EntityMetadata(organizations: seq<Lcc.CkanOrganization>, groups: seq<Lcc.CkanGroup>)

  /** One source record as the run sees it: its metadata (`None` when the harvester has no
      `extractEntityMetadata`) and its mapped dataset (`None` when the mapper throws). */
  datatype Job = Job(metadata: Option<EntityMetadata>, target: Option<Dataset>)

  /** A retried remote call, with the payload it sends. */
  datatype Call =
    | MainGroup
    | Organization(org: Lcc.CkanOrganization)
    | Group(group: Lcc.CkanGroup)
    | Upsert(dataset: Dataset)

  /** The harvester's memo sets and the log of the retried calls made so far. */
  datatype HarvestState = HarvestState(organizations: set<string>, groups: set<string>, calls: seq<Call>)

  /** The state after a step, and whether the step returned normally. */
  datatype Step = Step(state: HarvestState, ok: bool)

  datatype RunTally = RunTally(state: HarvestState, upserts: nat, failures: nat)

  datatype RunStats = RunStats(total: nat, upserts: nat, failures: nat, minTime: int, maxConcurrent: int)

  predicate IsEnsure(c: Call) {
    c.Organization? || c.Group?
  }

  // ---------------------------------------------------------------------------
  // Limiter parameters

  /** `Math.ceil(1000 / Math.max(1, rps))`: the spacing between job starts, in milliseconds. */
  function MinTime(rps: int): (t: int)
    ensures 1 <= t <= 1000
    ensures var r := if rps < 1 then 1 else rps; (t - 1) * r < 1000 <= t * r
  {
    var r := if rps < 1 then 1 else rps;
    (1000 + r - 1) / r
  }

  /** `Math.max(1, concurrency)`. */
  function MaxConcurrent(concurrency: int): (m: int)
    ensures m >= 1 && m >= concurrency
    ensures concurrency >= 1 ==> m == concurrency
  {
    if concurrency < 1 then 1 else concurrency
  }

  // ---------------------------------------------------------------------------
  // Specification of the steps

  /** `ensureOrganizationExists(org)` / `ensureGroupExists(group)` of the harvester. */
  function Ensure(dryRun: bool, s: HarvestState, c: Call, failing: set<nat>): Step
    requires IsEnsure(c)
  {
    if dryRun then Step(s, true)
    else if c.Organization? && c.org.name in s.organizations then Step(s, true)
    else if c.Group? && c.group.name in s.groups then Step(s, true)
    else
      var calls := s.calls + [c];
      if |s.calls| in failing then Step(s.(calls := calls), false)
      else if c.Organization? then Step(HarvestState(s.organizations + {c.org.name}, s.groups, calls), true)
      else Step(HarvestState(s.organizations, s.groups + {c.group.name}, calls), true)
  }

  /** Ensuring each entity in order, stopping at the first that throws. */
  function EnsureAll(dryRun: bool, s: HarvestState, cs: seq<Call>, failing: set<nat>): Step
    requires forall i :: 0 <= i < |cs| ==> IsEnsure(cs[i])
    decreases |cs|
  {
    if |cs| == 0 then Step(s, true)
    else
      var prev := EnsureAll(dryRun, s, cs[..|cs| - 1], failing);
      if !prev.ok then prev else Ensure(dryRun, prev.state, cs[|cs| - 1], failing)
  }

  function OrganizationCalls(orgs: seq<Lcc.CkanOrganization>): (cs: seq<Call>)
    ensures |cs| == |orgs| && forall i :: 0 <= i < |orgs| ==> cs[i] == Organization(orgs[i])
  {
    seq(|orgs|, i requires 0 <= i < |orgs| => Organization(orgs[i]))
  }

  function GroupCalls(groups: seq<Lcc.CkanGroup>): (cs: seq<Call>)
    ensures |cs| == |groups| && forall i :: 0 <= i < |groups| ==> cs[i] == Group(groups[i])
  {
    seq(|groups|, i requires 0 <= i < |groups| => Group(groups[i]))
  }

  /** The ensure calls a job asks for: its organisations in order, then its groups in order. */
  function EnsureCalls(job: Job): (cs: seq<Call>)
    ensures forall i :: 0 <= i < |cs| ==> IsEnsure(cs[i])
  {
    if job.metadata.Some? then
      OrganizationCalls(job.metadata.value.organizations) + GroupCalls(job.metadata.value.groups)
    else []
  }

  /** The retried `upsertIntoTarget`: a dataset without a name throws before any request, a dry
      run returns without one. */
  function UpsertStep(dryRun: bool, s: HarvestState, d: Dataset, failing: set<nat>): Step {
    if d.name == "" then Step(s, false)
    else if dryRun then Step(s, true)
    else Step(s.(calls := s.calls + [Upsert(d)]), |s.calls| !in failing)
  }

  /** One job: ensure its entities, map the record, upsert it; `ok` says it counts as an upsert. */
  function JobSpec(dryRun: bool, s: HarvestState, job: Job, failing: set<nat>): Step {
    var ensured := EnsureAll(dryRun, s, EnsureCalls(job), failing);
    if !ensured.ok then ensured
    else if job.target.None? then Step(ensured.state, false)
    else UpsertStep(dryRun, ensured.state, job.target.value, failing)
  }

  /** The jobs in order, with the counters. */
  function RunJobs(dryRun: bool, s: HarvestState, jobs: seq<Job>, failing: set<nat>): (t: RunTally)
    ensures t.upserts + t.failures == |jobs|
    decreases |jobs|
  {
    if |jobs| == 0 then RunTally(s, 0, 0)
    else
      var prev := RunJobs(dryRun, s, jobs[..|jobs| - 1], failing);
      var step := JobSpec(dryRun, prev.state, jobs[|jobs| - 1], failing);
      if step.ok then RunTally(step.state, prev.upserts + 1, prev.failures)
      else RunTally(step.state, prev.upserts, prev.failures + 1)
  }

  // ---------------------------------------------------------------------------
  // The harvester

  /** The remote side of a run: every retried call reaches it in order, and `failing` names,
      by position, the calls that settle as a throw once `withRetry` gives up. */
  class Remote {
    const failing: set<nat>
    var log: seq<Call>

    constructor(failing: set<nat>)
      ensures this.failing == failing && log == []
    {
      this.failing := failing;
      log := [];
    }

    /** One retried call; `ok` is false when it throws. */
    method Send(c: Call) returns (ok: bool)
      modifies this
      ensures log == old(log) + [c]
      ensures ok <==> |old(log)| !in failing
    {
      ok := |log| !in failing;
      log := log + [c];
    }
  }

  class BaseHarvester {
    const dryRun: bool
    const rps: int
    const concurrency: int
    var createdOrganizations: set<string>
    var createdGroups: set<string>

    /** The memo sets together with the calls the remote side has received. */
    ghost function State(remote: Remote): HarvestState
      reads this, remote
    {
      HarvestState(createdOrganizations, createdGroups, remote.log)
    }

    constructor(dryRun: bool, rps: int, concurrency: int)
      ensures this.dryRun == dryRun && this.rps == rps && this.concurrency == concurrency
      ensures createdOrganizations == {} && createdGroups == {}
    {
      this.dryRun := dryRun;
      this.rps := rps;
      this.concurrency := concurrency;
      createdOrganizations := {};
      createdGroups := {};
    }

    /** `upsertIntoTarget({ dataset })`: the catalog's upsert with this run's dry-run flag. */
    function UpsertIntoTarget(catalog: map<string, Dataset>, dataset: Dataset, faults: PortalJsCloud.Faults): (r: PortalJsCloud.Upserted)
      ensures dryRun ==> r.requests == [] && r.catalog == catalog
      ensures r.outcome.Ok? ==> r.outcome.value == dataset
      ensures faults == PortalJsCloud.NoFaults ==>
                (r.outcome.Ok? <==> UpsertStep(dryRun, HarvestState({}, {}, []), dataset, {}).ok)
    {
      PortalJsCloud.UpsertWithoutFaults(catalog, dataset);
      PortalJsCloud.UpsertDataset(catalog, dataset, dryRun, faults)
    }

    /** `ensureOrganizationExists(org)`. */
    method EnsureOrganizationExists(org: Lcc.CkanOrganization, remote: Remote) returns (ok: bool)
      modifies this, remote
      ensures Step(State(remote), ok) == Ensure(dryRun, old(State(remote)), Organization(org), remote.failing)
      // in a dry run, or for a name already ensured, nothing is called and nothing changes
      ensures (dryRun || org.name in old(createdOrganizations)) ==> ok && State(remote) == old(State(remote))
      // otherwise exactly one retried ensure is made, and the name is remembered iff it returned
      ensures !dryRun && org.name !in old(createdOrganizations) ==>
                remote.log == old(remote.log) + [Organization(org)]
                && createdOrganizations == (if ok then old(createdOrganizations) + {org.name} else old(createdOrganizations))
      ensures createdGroups == old(createdGroups)
    {
      if dryRun {
        return true;
      }
      if org.name in createdOrganizations {
        return true;
      }
      ok := remote.Send(Organization(org));
      if ok {
        createdOrganizations := createdOrganizations + {org.name};
      }
    }

    /** `ensureGroupExists(group)`. */
    method EnsureGroupExists(group: Lcc.CkanGroup, remote: Remote) returns (ok: bool)
      modifies this, remote
      ensures Step(State(remote), ok) == Ensure(dryRun, old(State(remote)), Group(group), remote.failing)
      ensures (dryRun || group.name in old(createdGroups)) ==> ok && State(remote) == old(State(remote))
      ensures !dryRun && group.name !in old(createdGroups) ==>
                remote.log == old(remote.log) + [Group(group)]
                && createdGroups == (if ok then old(createdGroups) + {group.name} else old(createdGroups))
      ensures createdOrganizations == old(createdOrganizations)
    {
      if dryRun {
        return true;
      }
      if group.name in createdGroups {
        return true;
      }
      ok := remote.Send(Group(group));
      if ok {
        createdGroups := createdGroups + {group.name};
      }
    }

    /** The `for (const org of organizations)` loop of a job. */
    method EnsureOrganizations(orgs: seq<Lcc.CkanOrganization>, remote: Remote) returns (ok: bool)
      modifies this, remote
      ensures Step(State(remote), ok) == EnsureAll(dryRun, old(State(remote)), OrganizationCalls(orgs), remote.failing)
    {
      ghost var s0 := State(remote);
      ghost var cs := OrganizationCalls(orgs);
      ok := true;
      for i := 0 to |orgs|
        invariant Step(State(remote), true) == EnsureAll(dryRun, s0, cs[..i], remote.failing)
      {
        ok := EnsureOrganizationExists(orgs[i], remote);
        assert cs[..i + 1][..i] == cs[..i];
        if !ok {
          EnsureAllStops(dryRun, s0, cs, i + 1, remote.failing);
          return;
        }
      }
      assert cs[..|orgs|] == cs;
    }

    /** The `for (const group of groups)` loop of a job. */
    method EnsureGroups(groups: seq<Lcc.CkanGroup>, remote: Remote) returns (ok: bool)
      modifies this, remote
      ensures Step(State(remote), ok) == EnsureAll(dryRun, old(State(remote)), GroupCalls(groups), remote.failing)
    {
      ghost var s0 := State(remote);
      ghost var cs := GroupCalls(groups);
      ok := true;
      for j := 0 to |groups|
        invariant Step(State(remote), true) == EnsureAll(dryRun, s0, cs[..j], remote.failing)
      {
        ok := EnsureGroupExists(groups[j], remote);
        assert cs[..j + 1][..j] == cs[..j];
        if !ok {
          EnsureAllStops(dryRun, s0, cs, j + 1, remote.failing);
          return;
        }
      }
      assert cs[..|groups|] == cs;
    }

    /** The body of one job inside `run`'s try block; `ok` is false when it lands in the catch. */
    method RunJob(job: Job, remote: Remote) returns (ok: bool)
      modifies this, remote
      ensures Step(State(remote), ok) == JobSpec(dryRun, old(State(remote)), job, remote.failing)
    {
      ghost var s0 := State(remote);
      if job.metadata.Some? {
        var orgs, groups := job.metadata.value.organizations, job.metadata.value.groups;
        EnsureAllAppend(dryRun, s0, OrganizationCalls(orgs), GroupCalls(groups), remote.failing);
        ok := EnsureOrganizations(orgs, remote);
        if !ok {
          return;
        }
        ok := EnsureGroups(groups, remote);
        if !ok {
          return;
        }
      }
      if job.target.None? {
        return false;
      }
      var dataset := job.target.value;
      if dataset.name == "" {
        return false;
      }
      if dryRun {
        return true;
      }
      ok := remote.Send(Upsert(dataset));
    }

    /** `run()`, given the source records the harvester fetched. `None` when ensuring the main
        group throws, which rejects the run before any record is fetched. */
    method Run(jobs: seq<Job>, remote: Remote) returns (stats: Option<RunStats>)
      modifies this, remote
      // the main group is ensured first, and only outside a dry run
      ensures !dryRun ==> |remote.log| > |old(remote.log)| && remote.log[|old(remote.log)|] == MainGroup
      ensures !dryRun && |old(remote.log)| in remote.failing ==>
                stats == None && State(remote) == old(State(remote)).(calls := old(remote.log) + [MainGroup])
      ensures dryRun || |old(remote.log)| !in remote.failing ==>
                var s0 := if dryRun then old(State(remote)) else old(State(remote)).(calls := old(remote.log) + [MainGroup]);
                var t := RunJobs(dryRun, s0, jobs, remote.failing);
                && State(remote) == t.state
                && stats == Some(RunStats(|jobs|, t.upserts, t.failures, MinTime(rps), MaxConcurrent(concurrency)))
    {
      if !dryRun {
        var mainOk := remote.Send(MainGroup);
        if !mainOk {
          return None;
        }
      }
      ghost var s0 := State(remote);
      var minTime := MinTime(rps);
      var maxConcurrent := MaxConcurrent(concurrency);
      var total, upserts, failures := 0, 0, 0;
      for k := 0 to |jobs|
        invariant total == k
        invariant var t := RunJobs(dryRun, s0, jobs[..k], remote.failing);
          State(remote) == t.state && upserts == t.upserts && failures == t.failures
      {
        total := total + 1;
        assert jobs[..k + 1][..k] == jobs[..k];
        var ok := RunJob(jobs[k], remote);
        if ok {
          upserts := upserts + 1;
        } else {
          failures := failures + 1;
        }
      }
      assert jobs[..|jobs|] == jobs;
      RunJobsExtends(dryRun, s0, jobs, remote.failing);
      return Some(RunStats(total, upserts, failures, minTime, maxConcurrent));
    }
  }

  // ---------------------------------------------------------------------------
  // Properties

  /** Once an ensure throws, the rest of the list is not tried. */
  lemma {:induction false} EnsureAllStops(dryRun: bool, s: HarvestState, cs: seq<Call>, k: nat, failing: set<nat>)
    requires forall i :: 0 <= i < |cs| ==> IsEnsure(cs[i])
    requires k <= |cs| && !EnsureAll(dryRun, s, cs[..k], failing).ok
    ensures EnsureAll(dryRun, s, cs, failing) == EnsureAll(dryRun, s, cs[..k], failing)
    decreases |cs|
  {
    if k < |cs| {
      assert cs[..|cs| - 1][..k] == cs[..k];
      EnsureAllStops(dryRun, s, cs[..|cs| - 1], k, failing);
    } else {
      assert cs[..k] == cs;
    }
  }

  /** Ensuring two lists one after the other is ensuring their concatenation. */
  lemma {:induction false} EnsureAllAppend(dryRun: bool, s: HarvestState, a: seq<Call>, b: seq<Call>, failing: set<nat>)
    requires forall i :: 0 <= i < |a| ==> IsEnsure(a[i])
    requires forall i :: 0 <= i < |b| ==> IsEnsure(b[i])
    ensures forall i :: 0 <= i < |a + b| ==> IsEnsure((a + b)[i])
    ensures EnsureAll(dryRun, s, a + b, failing)
            == (var p := EnsureAll(dryRun, s, a, failing); if !p.ok then p else EnsureAll(dryRun, p.state, b, failing))
    decreases |b|
  {
    if |b| == 0 {
      assert a + b == a;
    } else {
      assert (a + b)[..|a + b| - 1] == a + b[..|b| - 1];
      EnsureAllAppend(dryRun, s, a, b[..|b| - 1], failing);
    }
  }

  /** A run only appends to the log of calls. */
  lemma {:induction false} RunJobsExtends(dryRun: bool, s: HarvestState, jobs: seq<Job>, failing: set<nat>)
    ensures var t := RunJobs(dryRun, s, jobs, failing);
      |s.calls| <= |t.state.calls| && t.state.calls[..|s.calls|] == s.calls
    decreases |jobs|
  {
    if |jobs| > 0 {
      RunJobsExtends(dryRun, s, jobs[..|jobs| - 1], failing);
      var prev := RunJobs(dryRun, s, jobs[..|jobs| - 1], failing);
      JobStaged(dryRun, prev.state, jobs[|jobs| - 1], failing);
      var t := RunJobs(dryRun, s, jobs, failing);
      assert t.state.calls[..|prev.state.calls|] == prev.state.calls;
      assert t.state.calls[..|s.calls|] == t.state.calls[..|prev.state.calls|][..|s.calls|];
    }
  }

  /** A dry run makes no remote call and leaves both memo sets as they were. */
  lemma {:induction false} DryRunTouchesNothing(s: HarvestState, jobs: seq<Job>, failing: set<nat>)
    ensures RunJobs(true, s, jobs, failing).state == s
    decreases |jobs|
  {
    if |jobs| > 0 {
      DryRunTouchesNothing(s, jobs[..|jobs| - 1], failing);
      DryRunEnsureAll(s, EnsureCalls(jobs[|jobs| - 1]), failing);
    }
  }

  lemma {:induction false} DryRunEnsureAll(s: HarvestState, cs: seq<Call>, failing: set<nat>)
    requires forall i :: 0 <= i < |cs| ==> IsEnsure(cs[i])
    ensures EnsureAll(true, s, cs, failing) == Step(s, true)
    decreases |cs|
  {
    if |cs| > 0 {
      DryRunEnsureAll(s, cs[..|cs| - 1], failing);
    }
  }

  /** Without failing calls every ensure returns. */
  lemma {:induction false} EnsureAllWithoutFailures(dryRun: bool, s: HarvestState, cs: seq<Call>)
    requires forall i :: 0 <= i < |cs| ==> IsEnsure(cs[i])
    ensures EnsureAll(dryRun, s, cs, {}).ok
    decreases |cs|
  {
    if |cs| > 0 {
      EnsureAllWithoutFailures(dryRun, s, cs[..|cs| - 1]);
    }
  }

  /** A record can be upserted when its mapper returns a dataset with a name. */
  predicate Upsertable(job: Job) {
    job.target.Some? && job.target.value.name != ""
  }

  function CountUpsertable(jobs: seq<Job>): nat
    decreases |jobs|
  {
    if |jobs| == 0 then 0
    else CountUpsertable(jobs[..|jobs| - 1]) + (if Upsertable(jobs[|jobs| - 1]) then 1 else 0)
  }

  /** When no remote call fails, exactly the upsertable records are upserted, in a dry run and
      in a real run alike: a dry run predicts the counters of a fault-free run. */
  lemma {:induction false} FaultFreeUpserts(dryRun: bool, s: HarvestState, jobs: seq<Job>)
    ensures RunJobs(dryRun, s, jobs, {}).upserts == CountUpsertable(jobs)
    ensures RunJobs(dryRun, s, jobs, {}).failures == |jobs| - CountUpsertable(jobs)
    decreases |jobs|
  {
    if |jobs| > 0 {
      var prev := RunJobs(dryRun, s, jobs[..|jobs| - 1], {});
      FaultFreeUpserts(dryRun, s, jobs[..|jobs| - 1]);
      EnsureAllWithoutFailures(dryRun, prev.state, EnsureCalls(jobs[|jobs| - 1]));
    }
  }

  /** Which memo set a call's success is recorded in. */
  function NameOf(c: Call): string {
    match c
    case MainGroup => ""
    case Organization(org) => org.name
    case Group(group) => group.name
    case Upsert(dataset) => dataset.name
  }

  /** The names whose retried organisation (or group) ensure returned. */
  function Succeeded(calls: seq<Call>, failing: set<nat>, organizations: bool): set<string> {
    set i | 0 <= i < |calls| && i !in failing
                && (if organizations then calls[i].Organization? else calls[i].Group?) :: NameOf(calls[i])
  }

  /** No name is ensured again after an ensure of it returned. */
  predicate AtMostOnce(calls: seq<Call>, failing: set<nat>) {
    forall i, j :: 0 <= i < j < |calls| && i !in failing && IsEnsure(calls[i])
                   && calls[j].Organization? == calls[i].Organization? && IsEnsure(calls[j])
                   ==> NameOf(calls[i]) != NameOf(calls[j])
  }

  /** The memo sets hold exactly the names whose ensure returned, and no name was ensured twice. */
  predicate MemoExact(s: HarvestState, failing: set<nat>) {
    && s.organizations == Succeeded(s.calls, failing, true)
    && s.groups == Succeeded(s.calls, failing, false)
    && AtMostOnce(s.calls, failing)
  }

  lemma SucceededSnoc(calls: seq<Call>, c: Call, failing: set<nat>, organizations: bool)
    ensures Succeeded(calls + [c], failing, organizations)
            == Succeeded(calls, failing, organizations)
               + (if |calls| !in failing && (if organizations then c.Organization? else c.Group?)
                  then {NameOf(c)} else {})
  {
    var xs := calls + [c];
    assert forall i :: 0 <= i < |calls| ==> xs[i] == calls[i];
    assert xs[|calls|] == c;
  }

  /** A run's memo sets start empty, and a fresh harvester satisfies the memo invariant. */
  lemma MemoExactInitially(failing: set<nat>)
    ensures MemoExact(HarvestState({}, {}, []), failing)
  {
  }

  lemma EnsureKeepsMemoExact(dryRun: bool, s: HarvestState, c: Call, failing: set<nat>)
    requires IsEnsure(c) && MemoExact(s, failing)
    ensures MemoExact(Ensure(dryRun, s, c, failing).state, failing)
  {
    var r := Ensure(dryRun, s, c, failing).state;
    if r != s {
      SucceededSnoc(s.calls, c, failing, true);
      SucceededSnoc(s.calls, c, failing, false);
      forall i, j | 0 <= i < j < |r.calls| && i !in failing && IsEnsure(r.calls[i])
                    && r.calls[j].Organization? == r.calls[i].Organization? && IsEnsure(r.calls[j])
        ensures NameOf(r.calls[i]) != NameOf(r.calls[j])
      {
        if j == |s.calls| {
          assert r.calls[i] == s.calls[i];
          if c.Organization? {
            assert NameOf(s.calls[i]) in Succeeded(s.calls, failing, true);
          } else {
            assert NameOf(s.calls[i]) in Succeeded(s.calls, failing, false);
          }
        }
      }
    }
  }

  lemma {:induction false} EnsureAllKeepsMemoExact(dryRun: bool, s: HarvestState, cs: seq<Call>, failing: set<nat>)
    requires forall i :: 0 <= i < |cs| ==> IsEnsure(cs[i])
    requires MemoExact(s, failing)
    ensures MemoExact(EnsureAll(dryRun, s, cs, failing).state, failing)
    decreases |cs|
  {
    if |cs| > 0 {
      EnsureAllKeepsMemoExact(dryRun, s, cs[..|cs| - 1], failing);
      var prev := EnsureAll(dryRun, s, cs[..|cs| - 1], failing);
      if prev.ok {
        EnsureKeepsMemoExact(dryRun, prev.state, cs[|cs| - 1], failing);
      }
    }
  }

  /** Logging a call that is not an ensure keeps the memo invariant. */
  lemma OtherCallKeepsMemoExact(s: HarvestState, c: Call, failing: set<nat>)
    requires !IsEnsure(c) && MemoExact(s, failing)
    ensures MemoExact(s.(calls := s.calls + [c]), failing)
  {
    SucceededSnoc(s.calls, c, failing, true);
    SucceededSnoc(s.calls, c, failing, false);
  }

  /** Every run keeps the memo sets equal to the names whose ensure returned, and never ensures
      a name again once its ensure returned. */
  lemma {:induction false} RunKeepsMemoExact(dryRun: bool, s: HarvestState, jobs: seq<Job>, failing: set<nat>)
    requires MemoExact(s, failing)
    ensures MemoExact(RunJobs(dryRun, s, jobs, failing).state, failing)
    decreases |jobs|
  {
    if |jobs| > 0 {
      RunKeepsMemoExact(dryRun, s, jobs[..|jobs| - 1], failing);
      var prev := RunJobs(dryRun, s, jobs[..|jobs| - 1], failing);
      var job := jobs[|jobs| - 1];
      EnsureAllKeepsMemoExact(dryRun, prev.state, EnsureCalls(job), failing);
      var ensured := EnsureAll(dryRun, prev.state, EnsureCalls(job), failing);
      if ensured.ok && job.target.Some? && job.target.value.name != "" && !dryRun {
        OtherCallKeepsMemoExact(ensured.state, Upsert(job.target.value), failing);
      }
    }
  }

  /** The stage of a call inside a job: organisations, then groups, then the upsert. */
  function Stage(c: Call): int {
    match c
    case MainGroup => 0
    case Organization(_) => 1
    case Group(_) => 2
    case Upsert(_) => 3
  }

  lemma {:induction false} EnsureAllExtends(dryRun: bool, s: HarvestState, cs: seq<Call>, failing: set<nat>)
    requires forall i :: 0 <= i < |cs| ==> IsEnsure(cs[i])
    ensures var r := EnsureAll(dryRun, s, cs, failing);
      && |s.calls| <= |r.state.calls| && r.state.calls[..|s.calls|] == s.calls
      && (forall i :: |s.calls| <= i < |r.state.calls| ==> r.state.calls[i] in cs)
      && (forall i :: |s.calls| <= i < |r.state.calls| - 1 ==> i !in failing)
      && (r.ok ==> forall i :: |s.calls| <= i < |r.state.calls| ==> i !in failing)
    decreases |cs|
  {
    if |cs| > 0 {
      EnsureAllExtends(dryRun, s, cs[..|cs| - 1], failing);
      var prev := EnsureAll(dryRun, s, cs[..|cs| - 1], failing);
      assert forall c :: c in cs[..|cs| - 1] ==> c in cs;
    }
  }

  /** Within a job the calls go organisations, then groups, then the upsert, each in the order
      given; an upsert is made only when every ensure of the job returned; a job that counts as
      an upsert had every call return. */
  lemma JobStaged(dryRun: bool, s: HarvestState, job: Job, failing: set<nat>)
    ensures var r := JobSpec(dryRun, s, job, failing);
      && |s.calls| <= |r.state.calls| && r.state.calls[..|s.calls|] == s.calls
      && (forall i, j :: |s.calls| <= i < j < |r.state.calls| ==> Stage(r.state.calls[i]) <= Stage(r.state.calls[j]))
      && (forall i :: |s.calls| <= i < |r.state.calls| && r.state.calls[i].Upsert? ==>
            i == |r.state.calls| - 1 && forall k :: |s.calls| <= k < i ==> k !in failing)
      && (r.ok ==> forall i :: |s.calls| <= i < |r.state.calls| ==> i !in failing)
  {
    var cs := EnsureCalls(job);
    var ensured := EnsureAll(dryRun, s, cs, failing);
    EnsureAllExtends(dryRun, s, cs, failing);
    EnsureAllOrdered(dryRun, s, job, failing);
  }

  /** The ensure calls of a job are made organisations first, each in the order given. */
  lemma EnsureAllOrdered(dryRun: bool, s: HarvestState, job: Job, failing: set<nat>)
    ensures var r := EnsureAll(dryRun, s, EnsureCalls(job), failing);
      forall i, j :: |s.calls| <= i < j < |r.state.calls| ==> Stage(r.state.calls[i]) <= Stage(r.state.calls[j])
  {
    var cs := EnsureCalls(job);
    if job.metadata.Some? {
      var orgs := OrganizationCalls(job.metadata.value.organizations);
      forall i | 0 <= i < |cs| ensures Stage(cs[i]) == (if i < |orgs| then 1 else 2) {
      }
      EnsureAllMonotone(dryRun, s, cs, failing, |orgs|);
    } else {
      assert cs == [];
    }
  }

  /** Calls are logged in the order of the list, so a list whose stages rise gives a log whose
      stages rise. */
  lemma {:induction false} EnsureAllMonotone(dryRun: bool, s: HarvestState, cs: seq<Call>, failing: set<nat>, split: nat)
    requires forall i :: 0 <= i < |cs| ==> IsEnsure(cs[i])
    requires split <= |cs|
    requires forall i :: 0 <= i < |cs| ==> Stage(cs[i]) == (if i < split then 1 else 2)
    ensures var r := EnsureAll(dryRun, s, cs, failing);
      && |s.calls| <= |r.state.calls|
      && (forall i, j :: |s.calls| <= i < j < |r.state.calls| ==> Stage(r.state.calls[i]) <= Stage(r.state.calls[j]))
      && (|r.state.calls| > |s.calls| ==> Stage(r.state.calls[|r.state.calls| - 1]) <= (if |cs| <= split then 1 else 2))
    decreases |cs|
  {
    if |cs| > 0 {
      var init := cs[..|cs| - 1];
      EnsureAllMonotone(dryRun, s, init, failing, if split < |cs| then split else |cs| - 1);
      EnsureAllExtends(dryRun, s, init, failing);
      var prev := EnsureAll(dryRun, s, init, failing);
      if prev.ok {
        var r := Ensure(dryRun, prev.state, cs[|cs| - 1], failing);
        assert |r.state.calls| == |prev.state.calls| || r.state.calls == prev.state.calls + [cs[|cs| - 1]];
      }
    }
  }
}
