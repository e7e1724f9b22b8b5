/** The `/api/milestones` route: a status update of one milestone with the
    project status derived from it (PUT), a flattened and filtered listing
    (GET), and the addition of a milestone to a project (POST). Its own
    module-level table starts empty and no handler ever adds a project to
    it; the operations still take the table as a parameter. */
module MilestonesRoute {
  import opened Common
  import opened Text
  import opened Seqs
  import opened Constants

  /** The route's reply to a successful write: the new table, the written
      milestone and its project as stored. */
  datatype Outcome = Outcome(store: seq<Project>, milestone: Milestone, project: Project)

  const ProjectNotFound := "Project not found"
  const MilestoneNotFound := "Milestone not found"

  // ---------------------------------------------------------------------
  // PUT: milestone status update
  // ---------------------------------------------------------------------

  datatype StatusBody = StatusBody(
    projectId: Option<string>,
    milestoneId: Option<string>,
    status: Option<string>,
    verifiedBy: Option<string>,
    verifiedAt: Option<string>,
    rejectionReason: Option<string>)

  const MissingStatusFields := "Missing required fields: projectId, milestoneId, status"
  const InvalidStatus := "Invalid milestone status"

  /** `{ ...m, status, verifiedBy: verifiedBy || m.verifiedBy, verifiedAt:
      verifiedAt || m.verifiedAt, ...(rejectionReason && { rejectionReason }) }`:
      the status is set, the verifier fields keep their old values unless the
      body supplies truthy ones, a reason is attached only when supplied, and
      every other field is kept. */
  function Restamp(m: Milestone, status: MilestoneStatus, b: StatusBody): (r: Milestone)
    ensures r.status == status
    ensures IsTruthy(b.verifiedBy) ==> r.verifiedBy == b.verifiedBy
    ensures !IsTruthy(b.verifiedBy) ==> r.verifiedBy == m.verifiedBy
    ensures IsTruthy(b.verifiedAt) ==> r.verifiedAt == b.verifiedAt
    ensures !IsTruthy(b.verifiedAt) ==> r.verifiedAt == m.verifiedAt
    ensures r.rejectionReason == if IsTruthy(b.rejectionReason) then b.rejectionReason else m.rejectionReason
    ensures r.(status := m.status, verifiedBy := m.verifiedBy, verifiedAt := m.verifiedAt,
               rejectionReason := m.rejectionReason) == m
  {
    m.(status := status,
       verifiedBy := OrElse(b.verifiedBy, m.verifiedBy),
       verifiedAt := OrElse(b.verifiedAt, m.verifiedAt),
       rejectionReason := if IsTruthy(b.rejectionReason) then b.rejectionReason else m.rejectionReason)
  }

  predicate IsVerified(m: Milestone) {
    m.status == Verified
  }

  /** The project status after a milestone update: `completed` when every
      milestone is verified, else `in_progress` when at least one is, else
      unchanged. */
  function DerivedStatus(ms: seq<Milestone>, current: ProjectStatus): (r: ProjectStatus)
    ensures (forall m :: m in ms ==> IsVerified(m)) ==> r == Completed
    ensures (exists m :: m in ms && IsVerified(m)) && (exists m :: m in ms && !IsVerified(m)) ==> r == InProgress
    ensures (forall m :: m in ms ==> !IsVerified(m)) && ms != [] ==> r == current
  {
    var verified := Count(ms, IsVerified);
    if verified == |ms| then Completed
    else if verified > 0 then InProgress
    else current
  }

  /** Verifying the last unverified milestone completes the project. */
  lemma VerifyingLastCompletes(ms: seq<Milestone>, j: nat, current: ProjectStatus)
    requires j < |ms|
    requires forall k :: 0 <= k < |ms| && k != j ==> IsVerified(ms[k])
    ensures DerivedStatus(ms[j := ms[j].(status := Verified)], current) == Completed
  {
    var after := ms[j := ms[j].(status := Verified)];
    forall m | m in after ensures IsVerified(m) {
      var k :| 0 <= k < |after| && after[k] == m;
    }
  }

  /** Rejecting a milestone of a project whose other milestones include a
      verified one leaves the project in progress, even a completed one. */
  lemma RejectingReopens(ms: seq<Milestone>, j: nat, k: nat, current: ProjectStatus)
    requires j < |ms| && k < |ms| && j != k && IsVerified(ms[k])
    ensures DerivedStatus(ms[j := ms[j].(status := Rejected)], current) == InProgress
  {
    var after := ms[j := ms[j].(status := Rejected)];
    assert after[k] in after && after[j] in after;
  }

  /** The project as stored after its milestone `j` was replaced by `m`. */
  function WithMilestone(p: Project, j: nat, m: Milestone, now: int): (r: Project)
    requires j < |p.milestones|
  {
    var ms := p.milestones[j := m];
    p.(milestones := ms, updatedAt := now, status := DerivedStatus(ms, p.status))
  }

  /** The outcome of a PUT: the two 400 replies, then the two 404 replies, in
      the handler's order; on success only the first project with the id
      changes, and in it only the first milestone with the id, its status
      and its timestamp. */
  function SetStatus(store: seq<Project>, b: StatusBody, now: int): (r: Result<Outcome, Failure>)
    ensures (!(IsTruthy(b.projectId) && IsTruthy(b.milestoneId) && IsTruthy(b.status)))
              ==> r == Err(Failure(400, MissingStatusFields))
    ensures (IsTruthy(b.projectId) && IsTruthy(b.milestoneId) && IsTruthy(b.status)
             && ParseMilestoneStatus(b.status.value).None?)
              ==> r == Err(Failure(400, InvalidStatus))
    ensures (IsTruthy(b.projectId) && IsTruthy(b.milestoneId) && IsTruthy(b.status)
             && ParseMilestoneStatus(b.status.value).Some?
             && forall p :: p in store ==> p.id != b.projectId.value)
              ==> r == Err(Failure(404, ProjectNotFound))
    ensures (IsTruthy(b.projectId) && IsTruthy(b.milestoneId) && IsTruthy(b.status)
             && ParseMilestoneStatus(b.status.value).Some?
             && exists i :: FirstWithId(store, b.projectId.value, i)
                  && forall m :: m in store[i].milestones ==> m.id != b.milestoneId.value)
              ==> r == Err(Failure(404, MilestoneNotFound))
    ensures r.Ok? <==>
              && IsTruthy(b.projectId) && IsTruthy(b.milestoneId) && IsTruthy(b.status)
              && ParseMilestoneStatus(b.status.value).Some?
              && exists i :: FirstWithId(store, b.projectId.value, i)
                   && exists m :: m in store[i].milestones && m.id == b.milestoneId.value
    ensures r.Ok? ==>
              && |r.value.store| == |store|
              && exists i, j :: FirstWithId(store, b.projectId.value, i)
                   && FirstMilestoneWithId(store[i].milestones, b.milestoneId.value, j)
                   && r.value.milestone == Restamp(store[i].milestones[j], ParseMilestoneStatus(b.status.value).value, b)
                   && r.value.project == WithMilestone(store[i], j, r.value.milestone, now)
                   && r.value.store == store[i := r.value.project]
  {
    if !(IsTruthy(b.projectId) && IsTruthy(b.milestoneId) && IsTruthy(b.status)) then
      Err(Failure(400, MissingStatusFields))
    else if ParseMilestoneStatus(b.status.value).None? then
      Err(Failure(400, InvalidStatus))
    else
      var status := ParseMilestoneStatus(b.status.value).value;
      var i := FirstIndex(store, IdIs(b.projectId.value));
      if i == -1 then
        assert forall k :: 0 <= k < |store| ==> store[k] in store;
        Err(Failure(404, ProjectNotFound))
      else
        var ms := store[i].milestones;
        var j := FirstIndex(ms, MilestoneIdIs(b.milestoneId.value));
        assert forall k :: FirstWithId(store, b.projectId.value, k) ==> k == i;
        if j == -1 then Err(Failure(404, MilestoneNotFound))
        else
          assert ms[j] in ms;
          var m := Restamp(ms[j], status, b);
          var p := WithMilestone(store[i], j, m, now);
          assert FirstWithId(store, b.projectId.value, i);
          assert FirstMilestoneWithId(ms, b.milestoneId.value, j);
          Ok(Outcome(store[i := p], m, p))
  }

  // ---------------------------------------------------------------------
  // GET: flattened, filtered listing
  // ---------------------------------------------------------------------

  /** A milestone annotated with the project it belongs to. */
  datatype Entry = Entry(milestone: Milestone, projectId: string, projectName: string, producerName: string)

  function Annotate(p: Project): (r: seq<Entry>)
    ensures |r| == |p.milestones|
    ensures forall k :: 0 <= k < |r| ==> r[k] == Entry(p.milestones[k], p.id, p.name, p.producerName)
  {
    Map(p.milestones, (m: Milestone) => Entry(m, p.id, p.name, p.producerName))
  }

  /** `projects.find(p => p.id === id)`. */
  function Find(store: seq<Project>, id: string): (r: Option<Project>)
    ensures r.None? <==> forall p :: p in store ==> p.id != id
    ensures r.Some? ==> exists i :: FirstWithId(store, id, i) && r.value == store[i]
  {
    var i := FirstIndex(store, IdIs(id));
    if i == -1 then None
    else
      assert FirstWithId(store, id, i);
      Some(store[i])
  }

  /** The entries before the query filters: one project's milestones when a
      truthy `projectId` is given (none if it is unknown), else every
      project's milestones in table order. */
  function Base(store: seq<Project>, projectId: Option<string>): seq<Entry> {
    if IsTruthy(projectId) then
      match Find(store, projectId.value)
      case Some(p) => Annotate(p)
      case None => []
    else Flatten(Map(store, Annotate))
  }

  predicate EntryMatches(status: Option<string>, auditor: Option<string>, e: Entry) {
    (IsTruthy(status) ==> MilestoneStatusName(e.milestone.status) == status.value)
    && (IsTruthy(auditor) ==> e.milestone.verifiedBy == auditor)
  }

  function ByMilestoneStatus(wanted: string): Entry -> bool {
    (e: Entry) => MilestoneStatusName(e.milestone.status) == wanted
  }

  function ByAuditor(name: string): Entry -> bool {
    (e: Entry) => e.milestone.verifiedBy == Some(name)
  }

  function EntryQuery(status: Option<string>, auditor: Option<string>): Entry -> bool {
    (e: Entry) => EntryMatches(status, auditor, e)
  }

  /** GET: the base entries, then the status filter and the `verifiedBy`
      filter, each only when its query is truthy. The two filters in a row
      are one filter by the combined query, so the base order and
      multiplicity are kept. */
  function List(store: seq<Project>, projectId: Option<string>, status: Option<string>, auditor: Option<string>): (r: seq<Entry>)
    ensures r == Filter(Base(store, projectId), EntryQuery(status, auditor))
    ensures forall e :: e in r <==> e in Base(store, projectId) && EntryMatches(status, auditor, e)
  {
    var base := Base(store, projectId);
    var both := EntryQuery(status, auditor);
    var byStatus := if IsTruthy(status) then Filter(base, ByMilestoneStatus(status.value)) else base;
    if IsTruthy(auditor) then
      if IsTruthy(status) then
        FilterFilter(base, ByMilestoneStatus(status.value), ByAuditor(auditor.value), both);
        Filter(byStatus, ByAuditor(auditor.value))
      else
        FilterCongruent(base, ByAuditor(auditor.value), both);
        Filter(byStatus, ByAuditor(auditor.value))
    else if IsTruthy(status) then
      FilterCongruent(base, ByMilestoneStatus(status.value), both);
      byStatus
    else
      FilterAll(base, both);
      byStatus
  }

  /** Without a project id, the listing holds an entry for every milestone of
      every project, annotated with that project. */
  lemma ListAllHoldsEveryMilestone(store: seq<Project>, i: nat, k: nat)
    requires i < |store| && k < |store[i].milestones|
    ensures var p := store[i];
            Entry(p.milestones[k], p.id, p.name, p.producerName) in List(store, None, None, None)
  {
    var ss := Map(store, Annotate);
    assert ss[i] == Annotate(store[i]);
    assert Annotate(store[i])[k] in ss[i];
  }

  /** Without a project id or filters, the listing has one entry per
      milestone of the table. */
  lemma ListAllLength(store: seq<Project>)
    ensures |List(store, None, None, None)| == SumOf(store, (p: Project) => |p.milestones|)
  {
    var ss := Map(store, Annotate);
    FlattenLength(ss);
    AnnotatedLengths(store);
  }

  lemma {:induction false} AnnotatedLengths(store: seq<Project>)
    ensures SumOf(Map(store, Annotate), (s: seq<Entry>) => |s|) == SumOf(store, (p: Project) => |p.milestones|)
  {
    if store != [] {
      assert Map(store, Annotate)[1..] == Map(store[1..], Annotate);
      AnnotatedLengths(store[1..]);
    }
  }

  // ---------------------------------------------------------------------
  // POST: milestone addition
  // ---------------------------------------------------------------------

  datatype AddBody = AddBody(
    projectId: Option<string>,
    title: Option<string>,
    description: Option<string>,
    targetDate: Option<string>,
    subsidyAmount: Option<int>)

  const MissingAddFields := "Missing required fields: projectId, title, description, targetDate, subsidyAmount"

  predicate AddFieldsPresent(b: AddBody) {
    IsTruthy(b.projectId) && IsTruthy(b.title) && IsTruthy(b.description)
    && IsTruthy(b.targetDate) && IsTruthyNum(b.subsidyAmount)
  }

  /** The milestone a POST appends: stamped with the request time, its
      title and description trimmed, pending, not yet verified. */
  function NewMilestone(b: AddBody, now: nat): Milestone
    requires AddFieldsPresent(b)
  {
    Milestone("milestone-" + NatToString(now), Trim(b.title.value), Trim(b.description.value),
      b.targetDate.value, Pending, None, None, None, b.subsidyAmount.value)
  }

  /** The outcome of a POST: 400 for a missing field, 404 for an unknown
      project; on success one pending milestone is appended to the first
      project with the id, and its subsidy total grows by exactly the
      milestone's amount. */
  function Add(store: seq<Project>, b: AddBody, now: nat): (r: Result<Outcome, Failure>)
    ensures !AddFieldsPresent(b) ==> r == Err(Failure(400, MissingAddFields))
    ensures (AddFieldsPresent(b) && forall p :: p in store ==> p.id != b.projectId.value)
              ==> r == Err(Failure(404, ProjectNotFound))
    ensures r.Ok? <==> AddFieldsPresent(b) && exists p :: p in store && p.id == b.projectId.value
    ensures r.Ok? ==>
              && |r.value.store| == |store|
              && r.value.milestone == NewMilestone(b, now)
              && exists i :: FirstWithId(store, b.projectId.value, i)
                   && r.value.project == store[i].(milestones := store[i].milestones + [r.value.milestone],
                                                   totalSubsidy := store[i].totalSubsidy + b.subsidyAmount.value,
                                                   updatedAt := now)
                   && r.value.store == store[i := r.value.project]
  {
    if !AddFieldsPresent(b) then Err(Failure(400, MissingAddFields))
    else
      var i := FirstIndex(store, IdIs(b.projectId.value));
      if i == -1 then Err(Failure(404, ProjectNotFound))
      else
        var m := NewMilestone(b, now);
        var p := store[i].(milestones := store[i].milestones + [m],
                           totalSubsidy := store[i].totalSubsidy + b.subsidyAmount.value,
                           updatedAt := now);
        assert FirstWithId(store, b.projectId.value, i) && store[i] in store;
        Ok(Outcome(store[i := p], m, p))
  }

  function Amount(m: Milestone): int {
    m.subsidyAmount
  }

  /** A project whose subsidy total is the sum of its milestone amounts keeps
      that balance through a POST. */
  lemma AddKeepsSubsidyBalanced(store: seq<Project>, b: AddBody, now: nat)
    requires Add(store, b, now).Ok?
    requires forall p :: p in store ==> p.totalSubsidy == SumOf(p.milestones, Amount)
    ensures forall p :: p in Add(store, b, now).value.store ==> p.totalSubsidy == SumOf(p.milestones, Amount)
  {
    var o := Add(store, b, now).value;
    var i :| FirstWithId(store, b.projectId.value, i)
             && o.project == store[i].(milestones := store[i].milestones + [o.milestone],
                                       totalSubsidy := store[i].totalSubsidy + b.subsidyAmount.value,
                                       updatedAt := now)
             && o.store == store[i := o.project];
    SumOfConcat(store[i].milestones, [o.milestone], Amount);
    assert SumOf([o.milestone], Amount) == o.milestone.subsidyAmount;
    assert store[i] in store;
    forall p | p in o.store ensures p.totalSubsidy == SumOf(p.milestones, Amount) {
      var k :| 0 <= k < |o.store| && o.store[k] == p;
      if k != i {
        assert store[k] in store;
      }
    }
  }

  // ---------------------------------------------------------------------
  // The route's own table, which starts and stays empty
  // ---------------------------------------------------------------------

  /** A write request the route accepts, with the clock at its arrival. */
  datatype Request = PutStatus(status: StatusBody, at: int) | PostMilestone(add: AddBody, time: nat)

  /** The table after one request: a failed request leaves it unchanged. */
  function Step(store: seq<Project>, req: Request): seq<Project> {
    match req
    case PutStatus(b, at) =>
      var r := SetStatus(store, b, at);
      if r.Ok? then r.value.store else store
    case PostMilestone(b, time) =>
      var r := Add(store, b, time);
      if r.Ok? then r.value.store else store
  }

  function Run(store: seq<Project>, reqs: seq<Request>): seq<Project>
    decreases |reqs|
  {
    if reqs == [] then store else Run(Step(store, reqs[0]), reqs[1..])
  }

  /** On the empty table a well-formed PUT always ends in 404. */
  lemma EmptyTablePutNotFound(b: StatusBody, now: int)
    requires IsTruthy(b.projectId) && IsTruthy(b.milestoneId) && IsTruthy(b.status)
    requires ParseMilestoneStatus(b.status.value).Some?
    ensures SetStatus([], b, now) == Err(Failure(404, ProjectNotFound))
  {
  }

  /** On the empty table a POST with every field present always ends in 404. */
  lemma EmptyTablePostNotFound(b: AddBody, now: nat)
    requires AddFieldsPresent(b)
    ensures Add([], b, now) == Err(Failure(404, ProjectNotFound))
  {
  }

  /** Since no request inserts a project, the table stays empty whatever
      requests arrive. */
  lemma {:induction false} TableStaysEmpty(reqs: seq<Request>)
    ensures Run([], reqs) == []
  {
    if reqs != [] {
      assert Step([], reqs[0]) == [] by {
        match reqs[0]
        case PutStatus(b, at) =>
          assert SetStatus([], b, at).Err?;
        case PostMilestone(b, time) =>
          assert Add([], b, time).Err?;
      }
      TableStaysEmpty(reqs[1..]);
    }
  }

  class MilestoneTable {
    var projects: seq<Project>

    constructor ()
      ensures projects == []
    {
      projects := [];
    }

    method Put(b: StatusBody, now: int) returns (r: Result<Outcome, Failure>)
      modifies this
      ensures r == SetStatus(old(projects), b, now)
      ensures projects == if r.Ok? then r.value.store else old(projects)
    {
      if !(IsTruthy(b.projectId) && IsTruthy(b.milestoneId) && IsTruthy(b.status)) {
        return Err(Failure(400, MissingStatusFields));
      }
      var status := ParseMilestoneStatus(b.status.value);
      if status.None? {
        return Err(Failure(400, InvalidStatus));
      }
      var i := FirstIndex(projects, IdIs(b.projectId.value));
      if i == -1 {
        return Err(Failure(404, ProjectNotFound));
      }
      var j := FirstIndex(projects[i].milestones, MilestoneIdIs(b.milestoneId.value));
      if j == -1 {
        return Err(Failure(404, MilestoneNotFound));
      }
      var m := Restamp(projects[i].milestones[j], status.value, b);
      var p := WithMilestone(projects[i], j, m, now);
      projects := projects[i := p];
      return Ok(Outcome(projects, m, p));
    }

    method Get(projectId: Option<string>, status: Option<string>, auditor: Option<string>) returns (r: seq<Entry>)
      ensures r == List(projects, projectId, status, auditor)
    {
      r := List(projects, projectId, status, auditor);
    }

    method Post(b: AddBody, now: nat) returns (r: Result<Outcome, Failure>)
      modifies this
      ensures r == Add(old(projects), b, now)
      ensures projects == if r.Ok? then r.value.store else old(projects)
    {
      if !AddFieldsPresent(b) {
        return Err(Failure(400, MissingAddFields));
      }
      var i := FirstIndex(projects, IdIs(b.projectId.value));
      if i == -1 {
        return Err(Failure(404, ProjectNotFound));
      }
      var m := NewMilestone(b, now);
      var p := projects[i].(milestones := projects[i].milestones + [m],
                            totalSubsidy := projects[i].totalSubsidy + b.subsidyAmount.value,
                            updatedAt := now);
      projects := projects[i := p];
      return Ok(Outcome(projects, m, p));
    }
  }
}
