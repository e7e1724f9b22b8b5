/** The shared vocabulary of the server routes: user roles, milestone and
    project statuses with their wire strings, and the Project, Milestone and
    User records. */
module Constants {
  import opened Common

  datatype UserRole = Producer | Government | Auditor

  /** The string each role is stored and displayed as. */
  function RoleName(r: UserRole): string {
    match r
    case Producer => "Producer"
    case Government => "Government"
    case Auditor => "Auditor"
  }

  /** The role a string names, if it names one: exactly the three role
      strings are accepted, and each is read back as the role it came from. */
  function ParseRole(s: string): (r: Option<UserRole>)
    ensures r.Some? <==> s == "Producer" || s == "Government" || s == "Auditor"
    ensures r.Some? ==> RoleName(r.value) == s
  {
    if s == "Producer" then Some(Producer)
    else if s == "Government" then Some(Government)
    else if s == "Auditor" then Some(Auditor)
    else None
  }

  /** Distinct roles have distinct names, so a role survives a round trip
      through its name. */
  lemma RoleNameRoundTrip(r: UserRole)
    ensures ParseRole(RoleName(r)) == Some(r)
  {
  }

  datatype MilestoneStatus = Pending | Verified | Rejected

  function MilestoneStatusName(s: MilestoneStatus): string {
    match s
    case Pending => "pending"
    case Verified => "verified"
    case Rejected => "rejected"
  }

  /** `Object.values(MILESTONE_STATUS).includes(s)` together with the value
      it selects. */
  function ParseMilestoneStatus(s: string): (r: Option<MilestoneStatus>)
    ensures r.Some? <==> s == "pending" || s == "verified" || s == "rejected"
    ensures r.Some? ==> MilestoneStatusName(r.value) == s
  {
    if s == "pending" then Some(Pending)
    else if s == "verified" then Some(Verified)
    else if s == "rejected" then Some(Rejected)
    else None
  }

  lemma MilestoneStatusNameRoundTrip(s: MilestoneStatus)
    ensures ParseMilestoneStatus(MilestoneStatusName(s)) == Some(s)
  {
  }

  datatype ProjectStatus = Draft | Submitted | Approved | InProgress | Completed

  function ProjectStatusName(s: ProjectStatus): string {
    match s
    case Draft => "draft"
    case Submitted => "submitted"
    case Approved => "approved"
    case InProgress => "in_progress"
    case Completed => "completed"
  }

  function ParseProjectStatus(s: string): (r: Option<ProjectStatus>)
    ensures r.Some? <==> s == "draft" || s == "submitted" || s == "approved"
                         || s == "in_progress" || s == "completed"
    ensures r.Some? ==> ProjectStatusName(r.value) == s
  {
    if s == "draft" then Some(Draft)
    else if s == "submitted" then Some(Submitted)
    else if s == "approved" then Some(Approved)
    else if s == "in_progress" then Some(InProgress)
    else if s == "completed" then Some(Completed)
    else None
  }

  lemma ProjectStatusNameRoundTrip(s: ProjectStatus)
    ensures ParseProjectStatus(ProjectStatusName(s)) == Some(s)
  {
  }

  /** A milestone as the routes store it. `verifiedBy` and `verifiedAt` are
      optional; `rejectionReason` is not declared by the interface but the
      milestone route attaches it to rejected milestones. */
  datatype Milestone = Milestone(
    id: string,
    title: string,
    description: string,
    targetDate: string,
    status: MilestoneStatus,
    verifiedBy: Option<string>,
    verifiedAt: Option<string>,
    rejectionReason: Option<string>,
    subsidyAmount: int)

  /** A project as the routes store it; `createdAt` and `updatedAt` are
      abstract instants, larger meaning later. */
  datatype Project = Project(
    id: string,
    name: string,
    description: string,
    producerName: string,
    status: ProjectStatus,
    totalSubsidy: int,
    milestones: seq<Milestone>,
    createdAt: int,
    updatedAt: int)

  datatype User = User(name: string, role: UserRole)

  /** The test `project => project.id === id` that the routes search with. */
  function IdIs(id: string): Project -> bool {
    (p: Project) => p.id == id
  }

  /** `i` is the position `findIndex(project => project.id === id)` returns. */
  predicate FirstWithId(store: seq<Project>, id: string, i: int) {
    0 <= i < |store| && store[i].id == id && forall j :: 0 <= j < i ==> store[j].id != id
  }

  function MilestoneIdIs(id: string): Milestone -> bool {
    (m: Milestone) => m.id == id
  }

  /** `j` is the position `findIndex(milestone => milestone.id === id)` returns. */
  predicate FirstMilestoneWithId(ms: seq<Milestone>, id: string, j: int) {
    0 <= j < |ms| && ms[j].id == id && forall k :: 0 <= k < j ==> ms[k].id != id
  }
}
