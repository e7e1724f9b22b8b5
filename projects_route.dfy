/** The `/api/projects` route: a module-level table of projects with a
    filtered listing (GET), validated creation (POST), merge-update by id
    (PUT) and removal by id (DELETE). The clock is a parameter `now`. */
module ProjectsRoute {
  import opened Common
  import opened Text
  import opened Seqs
  import opened Constants

  // ---------------------------------------------------------------------
  // The seed table
  // ---------------------------------------------------------------------

  /** The two demonstration projects the table starts with. */
  const SeedProjects: seq<Project> :=
    [
      Project(
        "project-1",
        "Green Hydrogen Production Facility - Phase 1",
        "Development of a 50MW green hydrogen production facility using renewable energy sources. This project aims to produce clean hydrogen for industrial applications and transportation.",
        "John Smith",
        InProgress,
        2500000,
        [
          Milestone("milestone-1-1", "Site Preparation and Permits",
            "Complete site preparation work and obtain all necessary environmental permits and approvals.",
            "2025-03-15", Verified, Some("Alice Johnson"), Some("2025-02-15T10:30:00Z"), None, 500000),
          Milestone("milestone-1-2", "Equipment Procurement and Installation",
            "Procure and install electrolysis equipment, renewable energy systems, and supporting infrastructure.",
            "2025-06-30", Pending, None, None, None, 1500000),
          Milestone("milestone-1-3", "Commissioning and Testing",
            "Complete system commissioning, safety testing, and begin initial hydrogen production.",
            "2025-09-15", Pending, None, None, None, 500000)
        ],
        20241201080000,
        20250215103000),
      Project(
        "project-2",
        "Hydrogen Transport Infrastructure",
        "Building hydrogen refueling stations and distribution network for clean transportation in the metropolitan area.",
        "Sarah Davis",
        Submitted,
        1800000,
        [
          Milestone("milestone-2-1", "Network Design and Planning",
            "Complete network design, site selection, and regulatory approvals for hydrogen refueling stations.",
            "2025-04-01", Pending, None, None, None, 400000),
          Milestone("milestone-2-2", "Station Construction Phase 1",
            "Build first 5 hydrogen refueling stations at strategic locations.",
            "2025-08-15", Pending, None, None, None, 800000),
          Milestone("milestone-2-3", "Network Integration and Operations",
            "Integrate stations into existing fuel network and begin commercial operations.",
            "2025-11-30", Pending, None, None, None, 600000)
        ],
        20241115142000,
        20241115142000)
    ]

  // ---------------------------------------------------------------------
  // GET: filtered listing
  // ---------------------------------------------------------------------

  /** The JSON reply of a listing: the projects and their count. */
  datatype Listing = Listing(projects: seq<Project>, total: nat)

  /** A project passes the `producer` query (case-insensitive substring of the
      producer name) and the `status` query (exact status string); an absent
      or empty query passes everything. */
  predicate MatchesQuery(producer: Option<string>, status: Option<string>, p: Project) {
    (IsTruthy(producer) ==> ContainsIgnoringCase(p.producerName, producer.value))
    && (IsTruthy(status) ==> ProjectStatusName(p.status) == status.value)
  }

  function ByProducer(term: string): Project -> bool {
    (p: Project) => ContainsIgnoringCase(p.producerName, term)
  }

  function ByStatus(wanted: string): Project -> bool {
    (p: Project) => ProjectStatusName(p.status) == wanted
  }

  function Query(producer: Option<string>, status: Option<string>): Project -> bool {
    (p: Project) => MatchesQuery(producer, status, p)
  }

  /** GET: the producer filter, then the status filter, each only when its
      query is truthy; `total` is the number of projects returned. */
  function List(store: seq<Project>, producer: Option<string>, status: Option<string>): (r: Listing)
    ensures r.total == |r.projects| <= |store|
    ensures forall p :: p in r.projects <==> p in store && MatchesQuery(producer, status, p)
  {
    var byProducer := if IsTruthy(producer) then Filter(store, ByProducer(producer.value)) else store;
    var byStatus := if IsTruthy(status) then Filter(byProducer, ByStatus(status.value)) else byProducer;
    Listing(byStatus, |byStatus|)
  }

  /** The listing keeps the table's order: the two filters in a row are the
      single filter of the table by the combined query. */
  lemma ListKeepsOrder(store: seq<Project>, producer: Option<string>, status: Option<string>)
    ensures List(store, producer, status).projects == Filter(store, Query(producer, status))
  {
    var both := Query(producer, status);
    if IsTruthy(producer) && IsTruthy(status) {
      FilterFilter(store, ByProducer(producer.value), ByStatus(status.value), both);
    } else if IsTruthy(producer) {
      FilterCongruent(store, ByProducer(producer.value), both);
    } else if IsTruthy(status) {
      FilterCongruent(store, ByStatus(status.value), both);
    } else {
      FilterAll(store, both);
    }
  }

  // ---------------------------------------------------------------------
  // POST: validated creation
  // ---------------------------------------------------------------------

  /** One milestone of a creation request; absent fields are `None`. */
  datatype MilestoneInput = MilestoneInput(
    title: Option<string>,
    description: Option<string>,
    targetDate: Option<string>,
    subsidyAmount: Option<int>)

  /** The request's `milestones` field: missing or falsy, a truthy value that
      is not an array, or an array. */
  datatype MilestonesField = Falsy | NotAnArray | Items(items: seq<MilestoneInput>)

  datatype CreateBody = CreateBody(
    name: Option<string>,
    description: Option<string>,
    producerName: Option<string>,
    totalSubsidy: Option<int>,
    milestones: MilestonesField)

  const MissingFields := "Missing required fields: name, description, producerName, totalSubsidy, milestones"
  const NoMilestones := "At least one milestone is required"
  const IncompleteMilestone := "Each milestone must have title, description, targetDate, and subsidyAmount"

  predicate RequiredPresent(b: CreateBody) {
    IsTruthy(b.name) && IsTruthy(b.description) && IsTruthy(b.producerName)
    && IsTruthyNum(b.totalSubsidy) && !b.milestones.Falsy?
  }

  predicate HasMilestones(b: CreateBody) {
    b.milestones.Items? && |b.milestones.items| > 0
  }

  predicate MilestoneComplete(m: MilestoneInput) {
    IsTruthy(m.title) && IsTruthy(m.description) && IsTruthy(m.targetDate) && IsTruthyNum(m.subsidyAmount)
  }

  predicate AllComplete(ms: seq<MilestoneInput>) {
    forall i :: 0 <= i < |ms| ==> MilestoneComplete(ms[i])
  }

  /** The `for ... of` loop over the requested milestones: it stops at the
      first incomplete one. */
  method CheckMilestones(ms: seq<MilestoneInput>) returns (ok: bool)
    ensures ok <==> forall i :: 0 <= i < |ms| ==> MilestoneComplete(ms[i])
  {
    var i := 0;
    while i < |ms|
      invariant 0 <= i <= |ms|
      invariant forall j :: 0 <= j < i ==> MilestoneComplete(ms[j])
    {
      if !MilestoneComplete(ms[i]) {
        return false;
      }
      i := i + 1;
    }
    return true;
  }

  function ProjectIdAt(now: nat): string {
    "project-" + NatToString(now)
  }

  function MilestoneIdAt(now: nat, index: nat): string {
    "milestone-" + NatToString(now) + "-" + NatToString(index)
  }

  /** Milestones created by one request get pairwise distinct ids. */
  lemma MilestoneIdsDistinct(now: nat, i: nat, j: nat)
    requires MilestoneIdAt(now, i) == MilestoneIdAt(now, j)
    ensures i == j
  {
    var prefix := "milestone-" + NatToString(now) + "-";
    var a, b := MilestoneIdAt(now, i), MilestoneIdAt(now, j);
    assert a == prefix + NatToString(i) && b == prefix + NatToString(j);
    assert NatToString(i) == a[|prefix|..] == b[|prefix|..] == NatToString(j);
    NatToStringInjective(i, j);
  }

  function NewMilestone(m: MilestoneInput, now: nat, index: nat): (r: Milestone)
    requires MilestoneComplete(m)
  {
    Milestone(MilestoneIdAt(now, index), Trim(m.title.value), Trim(m.description.value),
      m.targetDate.value, Pending, None, None, None, m.subsidyAmount.value)
  }

  function NewProject(b: CreateBody, now: nat): Project
    requires RequiredPresent(b) && HasMilestones(b) && AllComplete(b.milestones.items)
  {
    var items := b.milestones.items;
    Project(ProjectIdAt(now), Trim(b.name.value), Trim(b.description.value), Trim(b.producerName.value),
      Submitted, b.totalSubsidy.value,
      seq(|items|, i requires 0 <= i < |items| => NewMilestone(items[i], now, i)),
      now, now)
  }

  /** The outcome of a POST: the three 400 replies in the order the handler
      checks them, or the new project, submitted, with trimmed text and one
      pending milestone per requested milestone. */
  function Create(b: CreateBody, now: nat): (r: Result<Project, Failure>)
    ensures !RequiredPresent(b) ==> r == Err(Failure(400, MissingFields))
    ensures RequiredPresent(b) && !HasMilestones(b) ==> r == Err(Failure(400, NoMilestones))
    ensures (RequiredPresent(b) && HasMilestones(b) && !AllComplete(b.milestones.items))
              ==> r == Err(Failure(400, IncompleteMilestone))
    ensures r.Ok? <==> RequiredPresent(b) && HasMilestones(b) && AllComplete(b.milestones.items)
    ensures r.Ok? ==>
              var p, items := r.value, b.milestones.items;
              && p.id == ProjectIdAt(now)
              && p.name == Trim(b.name.value)
              && p.description == Trim(b.description.value)
              && p.producerName == Trim(b.producerName.value)
              && p.status == Submitted
              && p.totalSubsidy == b.totalSubsidy.value != 0
              && p.createdAt == p.updatedAt == now
              && |p.milestones| == |items|
              && forall i :: 0 <= i < |items| ==>
                   && p.milestones[i].status == Pending
                   && p.milestones[i].id == MilestoneIdAt(now, i)
                   && p.milestones[i].title == Trim(items[i].title.value)
                   && p.milestones[i].description == Trim(items[i].description.value)
                   && p.milestones[i].targetDate == items[i].targetDate.value
                   && p.milestones[i].subsidyAmount == items[i].subsidyAmount.value
                   && p.milestones[i].verifiedBy.None?
                   && p.milestones[i].verifiedAt.None?
                   && p.milestones[i].rejectionReason.None?
  {
    if !RequiredPresent(b) then Err(Failure(400, MissingFields))
    else if !HasMilestones(b) then Err(Failure(400, NoMilestones))
    else if !AllComplete(b.milestones.items) then Err(Failure(400, IncompleteMilestone))
    else Ok(NewProject(b, now))
  }

  /** A zero subsidy is falsy, so it is refused as a missing field. */
  lemma ZeroSubsidyRefused(b: CreateBody, now: nat)
    requires b.totalSubsidy == Some(0)
    ensures Create(b, now) == Err(Failure(400, MissingFields))
  {
  }

  // ---------------------------------------------------------------------
  // PUT: merge-update by id
  // ---------------------------------------------------------------------

  /** The fields of a PUT body other than `projectId`; `None` where the body
      does not carry the field. A body `updatedAt` is always overridden. */
  datatype Patch = Patch(
    id: Option<string>,
    name: Option<string>,
    description: Option<string>,
    producerName: Option<string>,
    status: Option<ProjectStatus>,
    totalSubsidy: Option<int>,
    milestones: Option<seq<Milestone>>,
    createdAt: Option<int>)

  /** `{ ...p, ...patch, updatedAt: now }`: every field the patch carries
      overrides, the others are kept, and the timestamp is refreshed. */
  function Merge(p: Project, patch: Patch, now: int): (r: Project)
    ensures r.updatedAt == now
    ensures r.id == patch.id.GetOr(p.id) && r.name == patch.name.GetOr(p.name)
    ensures r.description == patch.description.GetOr(p.description)
    ensures r.producerName == patch.producerName.GetOr(p.producerName)
    ensures r.status == patch.status.GetOr(p.status)
    ensures r.totalSubsidy == patch.totalSubsidy.GetOr(p.totalSubsidy)
    ensures r.milestones == patch.milestones.GetOr(p.milestones)
    ensures r.createdAt == patch.createdAt.GetOr(p.createdAt)
  {
    Project(patch.id.GetOr(p.id), patch.name.GetOr(p.name), patch.description.GetOr(p.description),
      patch.producerName.GetOr(p.producerName), patch.status.GetOr(p.status),
      patch.totalSubsidy.GetOr(p.totalSubsidy), patch.milestones.GetOr(p.milestones),
      patch.createdAt.GetOr(p.createdAt), now)
  }

  /** Merging the same patch twice is merging it once, up to the timestamp. */
  lemma MergeIdempotent(p: Project, patch: Patch, t1: int, t2: int)
    ensures Merge(Merge(p, patch, t1), patch, t2) == Merge(p, patch, t2)
  {
  }

  /** An empty patch only refreshes the timestamp. */
  lemma MergeEmptyPatch(p: Project, now: int)
    ensures Merge(p, Patch(None, None, None, None, None, None, None, None), now) == p.(updatedAt := now)
  {
  }

  /** A table after a successful write, with the project the reply carries. */
  datatype Change = Change(store: seq<Project>, project: Project)

  const IdRequired := "Project ID is required"
  const ProjectNotFound := "Project not found"

  function Update(store: seq<Project>, projectId: Option<string>, patch: Patch, now: int): (r: Result<Change, Failure>)
    ensures r.Ok? <==> IsTruthy(projectId) && exists p :: p in store && p.id == projectId.value
    ensures r.Err? ==> r.error == if IsTruthy(projectId) then Failure(404, ProjectNotFound) else Failure(400, IdRequired)
    ensures r.Ok? ==>
              && |r.value.store| == |store|
              && exists i :: FirstWithId(store, projectId.value, i)
                   && r.value.store == store[i := Merge(store[i], patch, now)]
                   && r.value.project == r.value.store[i]
  {
    if !IsTruthy(projectId) then Err(Failure(400, IdRequired))
    else
      var id := projectId.value;
      var i := FirstIndex(store, IdIs(id));
      if i == -1 then Err(Failure(404, ProjectNotFound))
      else
        assert FirstWithId(store, id, i);
        var merged := Merge(store[i], patch, now);
        Ok(Change(store[i := merged], merged))
  }

  /** Repeating a PUT whose body does not move the project to another id
      succeeds again and leaves the table as one PUT at the later time would. */
  lemma UpdateTwice(store: seq<Project>, projectId: Option<string>, patch: Patch, t1: int, t2: int)
    requires Update(store, projectId, patch, t1).Ok?
    requires patch.id.None? || patch.id == projectId
    ensures var once := Update(store, projectId, patch, t1).value.store;
            && Update(store, projectId, patch, t2).Ok?
            && Update(once, projectId, patch, t2).Ok?
            && Update(once, projectId, patch, t2).value.store == Update(store, projectId, patch, t2).value.store
  {
    var id := projectId.value;
    var i := FirstIndex(store, IdIs(id));
    var once := store[i := Merge(store[i], patch, t1)];
    assert Update(store, projectId, patch, t1).value.store == once;
    assert IdIs(id)(once[i]);
    var j := FirstIndex(once, IdIs(id));
    assert j == i by {
      assert forall k :: 0 <= k < i ==> once[k] == store[k];
    }
    MergeIdempotent(store[i], patch, t1, t2);
  }

  // ---------------------------------------------------------------------
  // DELETE: removal by id
  // ---------------------------------------------------------------------

  function Remove(store: seq<Project>, projectId: Option<string>): (r: Result<Change, Failure>)
    ensures r.Ok? <==> IsTruthy(projectId) && exists p :: p in store && p.id == projectId.value
    ensures r.Err? ==> r.error == if IsTruthy(projectId) then Failure(404, ProjectNotFound) else Failure(400, IdRequired)
    ensures r.Ok? ==>
              && |r.value.store| == |store| - 1
              && exists i :: FirstWithId(store, projectId.value, i)
                   && r.value.store == store[..i] + store[i + 1..]
                   && r.value.project == store[i]
  {
    if !IsTruthy(projectId) then Err(Failure(400, IdRequired))
    else
      var id := projectId.value;
      var i := FirstIndex(store, IdIs(id));
      if i == -1 then Err(Failure(404, ProjectNotFound))
      else
        assert FirstWithId(store, id, i);
        Ok(Change(store[..i] + store[i + 1..], store[i]))
  }

  /** A successful DELETE removes exactly one project carrying the id. */
  lemma RemoveDropsOne(store: seq<Project>, projectId: Option<string>)
    requires Remove(store, projectId).Ok?
    ensures var id := projectId.value;
            Count(Remove(store, projectId).value.store, IdIs(id)) == Count(store, IdIs(id)) - 1
  {
    var has := IdIs(projectId.value);
    var i := FirstIndex(store, has);
    assert Remove(store, projectId).value.store == store[..i] + store[i + 1..];
    CountRemoveIndex(store, i, has);
  }

  // ---------------------------------------------------------------------
  // The module-level table
  // ---------------------------------------------------------------------

  class ProjectTable {
    var projects: seq<Project>

    constructor ()
      ensures projects == SeedProjects
    {
      projects := SeedProjects;
    }

    method Get(producer: Option<string>, status: Option<string>) returns (r: Listing)
      ensures r == List(projects, producer, status)
    {
      r := List(projects, producer, status);
    }

    method Post(b: CreateBody, now: nat) returns (r: Result<Project, Failure>)
      modifies this
      ensures r == Create(b, now)
      ensures projects == if r.Ok? then old(projects) + [r.value] else old(projects)
    {
      if !RequiredPresent(b) {
        return Err(Failure(400, MissingFields));
      }
      if !HasMilestones(b) {
        return Err(Failure(400, NoMilestones));
      }
      var ok := CheckMilestones(b.milestones.items);
      if !ok {
        return Err(Failure(400, IncompleteMilestone));
      }
      var p := NewProject(b, now);
      projects := projects + [p];
      return Ok(p);
    }

    method Put(projectId: Option<string>, patch: Patch, now: int) returns (r: Result<Project, Failure>)
      modifies this
      ensures var u := Update(old(projects), projectId, patch, now);
              && (u.Ok? ==> r == Ok(u.value.project) && projects == u.value.store)
              && (u.Err? ==> r == Err(u.error) && projects == old(projects))
    {
      var u := Update(projects, projectId, patch, now);
      if u.Err? {
        return Err(u.error);
      }
      projects := u.value.store;
      return Ok(u.value.project);
    }

    method Delete(projectId: Option<string>) returns (r: Result<Project, Failure>)
      modifies this
      ensures var u := Remove(old(projects), projectId);
              && (u.Ok? ==> r == Ok(u.value.project) && projects == u.value.store)
              && (u.Err? ==> r == Err(u.error) && projects == old(projects))
    {
      var u := Remove(projects, projectId);
      if u.Err? {
        return Err(u.error);
      }
      projects := u.value.store;
      return Ok(u.value.project);
    }
  }
}
