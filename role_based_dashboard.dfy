/** The role-based dashboard over the route records: the projects a user
    sees, the dashboard counters, and the create-project form with its
    milestone list and the request it sends. */
module RoleBasedDashboard {
  import opened Common
  import opened Text
  import opened Seqs
  import opened Constants

  // ---------------------------------------------------------------------
  // Visible projects and counters
  // ---------------------------------------------------------------------

  function ProducerNamed(name: string): Project -> bool {
    (p: Project) => p.producerName == name
  }

  function NoProject(): Project -> bool {
    (p: Project) => false
  }

  /** `getFilteredProjects`: the role arrives as a string; a producer sees
      the projects filed under their name, government and auditors see all,
      any other role sees nothing. */
  function VisibleProjects(role: string, userName: string, ps: seq<Project>): (r: seq<Project>)
    ensures role == "Producer" ==> r == Filter(ps, ProducerNamed(userName))
    ensures role == "Government" || role == "Auditor" ==> r == ps
    ensures ParseRole(role).None? ==> r == []
  {
    match ParseRole(role)
    case Some(Producer) => Filter(ps, ProducerNamed(userName))
    case Some(_) => ps
    case None =>
      assert Filter(ps, NoProject()) == [] by {
        assert Count(ps, NoProject()) == 0;
        CountIsFilterLength(ps, NoProject());
      }
      []
  }

  function IsCompleted(p: Project): bool {
    p.status == Completed
  }

  function IsPendingMilestone(m: Milestone): bool {
    m.status == Pending
  }

  function PendingMilestones(p: Project): int {
    Count(p.milestones, IsPendingMilestone)
  }

  function MilestoneCount(p: Project): int {
    |p.milestones|
  }

  function TotalSubsidy(p: Project): int {
    p.totalSubsidy
  }

  datatype Stats = Stats(totalProjects: nat, completedProjects: nat, pendingMilestones: int, totalSubsidyValue: int)

  /** `getStats` over the visible projects. */
  function DashboardStats(visible: seq<Project>): (r: Stats)
    ensures r.totalProjects == |visible|
    ensures r.completedProjects == |Filter(visible, IsCompleted)| <= r.totalProjects
    ensures r.pendingMilestones == SumOf(visible, PendingMilestones)
    ensures r.totalSubsidyValue == SumOf(visible, TotalSubsidy)
    ensures 0 <= r.pendingMilestones <= SumOf(visible, MilestoneCount)
  {
    CountIsFilterLength(visible, IsCompleted);
    PendingWithinMilestones(visible);
    Stats(|visible|, Count(visible, IsCompleted), SumOf(visible, PendingMilestones), SumOf(visible, TotalSubsidy))
  }

  /** Pending milestones are among all milestones, project by project. */
  lemma {:induction false} PendingWithinMilestones(ps: seq<Project>)
    ensures 0 <= SumOf(ps, PendingMilestones) <= SumOf(ps, MilestoneCount)
  {
    if ps != [] {
      PendingWithinMilestones(ps[1..]);
      assert PendingMilestones(ps[0]) <= MilestoneCount(ps[0]);
    }
  }

  /** No subsidy is negative, so neither is the total. */
  lemma SubsidyValueNonNegative(visible: seq<Project>)
    requires forall i :: 0 <= i < |visible| ==> visible[i].totalSubsidy >= 0
    ensures DashboardStats(visible).totalSubsidyValue >= 0
  {
    SumOfNonNegative(visible, TotalSubsidy);
  }

  // ---------------------------------------------------------------------
  // The create-project form
  // ---------------------------------------------------------------------

  /** A milestone as typed into the form: every field is text. */
  datatype DraftMilestone = DraftMilestone(title: string, description: string, targetDate: string, subsidyAmount: string)

  const BlankMilestone := DraftMilestone("", "", "", "")

  datatype ProjectDraft = ProjectDraft(name: string, description: string, totalSubsidy: string, milestones: seq<DraftMilestone>)

  const BlankDraft := ProjectDraft("", "", "", [BlankMilestone])

  /** The field names `updateMilestone` is called with. */
  datatype Field = Title | Description | TargetDate | SubsidyAmount

  /** `{ ...m, [field]: value }`: the named field reads back as the value,
      the other three are untouched. */
  function SetField(m: DraftMilestone, field: Field, value: string): (r: DraftMilestone)
    ensures r.title == (if field == Title then value else m.title)
    ensures r.description == (if field == Description then value else m.description)
    ensures r.targetDate == (if field == TargetDate then value else m.targetDate)
    ensures r.subsidyAmount == (if field == SubsidyAmount then value else m.subsidyAmount)
  {
    match field
    case Title => m.(title := value)
    case Description => m.(description := value)
    case TargetDate => m.(targetDate := value)
    case SubsidyAmount => m.(subsidyAmount := value)
  }

  /** `addMilestone`: one blank entry at the end. */
  function AddMilestone(ms: seq<DraftMilestone>): (r: seq<DraftMilestone>)
    ensures |r| == |ms| + 1 && r[..|ms|] == ms && r[|ms|] == BlankMilestone
  {
    ms + [BlankMilestone]
  }

  /** `removeMilestone(i)`: exactly position `i` goes, the rest keep their
      order; the function itself has no guard. */
  function RemoveMilestone(ms: seq<DraftMilestone>, i: int): (r: seq<DraftMilestone>)
    ensures 0 <= i < |ms| ==> r == ms[..i] + ms[i + 1..]
    ensures !(0 <= i < |ms|) ==> r == ms
  {
    RemoveIndex(ms, i)
  }

  /** The remove button is rendered only while more than one milestone
      exists. */
  predicate RemoveOffered(ms: seq<DraftMilestone>) {
    |ms| > 1
  }

  /** Through the offered buttons the list never becomes empty. */
  lemma RemoveKeepsOne(ms: seq<DraftMilestone>, i: int)
    requires RemoveOffered(ms)
    ensures |RemoveMilestone(ms, i)| >= 1
  {
  }

  /** `updateMilestone(i, field, value)`: only that field of entry `i`
      changes. */
  function UpdateMilestone(ms: seq<DraftMilestone>, i: int, field: Field, value: string): (r: seq<DraftMilestone>)
    ensures |r| == |ms|
    ensures forall j :: 0 <= j < |ms| && j != i ==> r[j] == ms[j]
    ensures 0 <= i < |ms| ==> r[i] == SetField(ms[i], field, value)
  {
    if 0 <= i < |ms| then ms[i := SetField(ms[i], field, value)] else ms
  }

  // ---------------------------------------------------------------------
  // The create request
  // ---------------------------------------------------------------------

  /** A milestone as the request carries it; an amount that does not parse
      is `None` (NaN). */
  datatype MilestoneRequest = MilestoneRequest(
    id: string, title: string, description: string, targetDate: string,
    subsidyAmount: Option<int>, status: MilestoneStatus)

  datatype CreateRequest = CreateRequest(
    name: string, description: string, producerName: string,
    totalSubsidy: Option<int>, milestones: seq<MilestoneRequest>)

  /** `milestone-<now>-<index>`. */
  function MilestoneId(now: nat, index: nat): string {
    "milestone-" + NatToString(now) + "-" + NatToString(index)
  }

  /** Ids of one request differ because their indexes do. */
  lemma MilestoneIdInjective(now: nat, a: nat, b: nat)
    requires MilestoneId(now, a) == MilestoneId(now, b)
    ensures a == b
  {
    var prefix := "milestone-" + NatToString(now) + "-";
    assert MilestoneId(now, a)[|prefix|..] == NatToString(a);
    assert MilestoneId(now, b)[|prefix|..] == NatToString(b);
    NatToStringInjective(a, b);
  }

  function ToRequest(m: DraftMilestone, now: nat, index: nat): MilestoneRequest {
    MilestoneRequest(MilestoneId(now, index), m.title, m.description, m.targetDate, ParseAmount(m.subsidyAmount), Pending)
  }

  /** The milestones of the request, numbered from `from`. */
  function RequestMilestones(ms: seq<DraftMilestone>, now: nat, from: nat): (r: seq<MilestoneRequest>)
    ensures |r| == |ms|
    ensures forall k :: 0 <= k < |ms| ==> r[k] == ToRequest(ms[k], now, from + k)
  {
    MapIndexed(ms, (m: DraftMilestone, index: nat) => ToRequest(m, now, index), from)
  }

  /** `handleCreateProject`'s request: the user's name as producer, one
      pending milestone per form entry, in order, with distinct ids. */
  function CreatePayload(userName: string, d: ProjectDraft, now: nat): (r: CreateRequest)
    ensures r.producerName == userName && r.name == d.name && r.description == d.description
    ensures r.totalSubsidy == ParseAmount(d.totalSubsidy)
    ensures r.milestones == RequestMilestones(d.milestones, now, 0)
    ensures |r.milestones| == |d.milestones|
    ensures forall k :: 0 <= k < |r.milestones| ==>
              && r.milestones[k].status == Pending
              && r.milestones[k].title == d.milestones[k].title
              && r.milestones[k].description == d.milestones[k].description
              && r.milestones[k].targetDate == d.milestones[k].targetDate
              && r.milestones[k].subsidyAmount == ParseAmount(d.milestones[k].subsidyAmount)
    ensures forall k, l :: 0 <= k < l < |r.milestones| ==> r.milestones[k].id != r.milestones[l].id
  {
    var ms := RequestMilestones(d.milestones, now, 0);
    forall k, l | 0 <= k < l < |ms| ensures ms[k].id != ms[l].id {
      if ms[k].id == ms[l].id {
        MilestoneIdInjective(now, k, l);
      }
    }
    CreateRequest(d.name, d.description, userName, ParseAmount(d.totalSubsidy), ms)
  }

  /** How the POST ended: an ok response, a refused one, or a thrown call. */
  datatype Reply = Accepted | Declined | Threw

  class Dashboard {
    var showCreateProject: bool
    var newProject: ProjectDraft
    var isCreating: bool

    constructor ()
      ensures !showCreateProject && newProject == BlankDraft && !isCreating
    {
      showCreateProject := false;
      newProject := BlankDraft;
      isCreating := false;
    }

    /** Sends the request; an accepted one closes the form, resets it and
        asks the parent to reload. */
    method CreateProject(userName: string, now: nat, reply: Reply) returns (sent: CreateRequest, reload: bool, alert: string)
      modifies this
      ensures sent == CreatePayload(userName, old(newProject), now)
      ensures !isCreating
      ensures reload <==> reply == Accepted
      ensures reply == Accepted ==> !showCreateProject && newProject == BlankDraft && alert == "Project created successfully!"
      ensures reply != Accepted ==> showCreateProject == old(showCreateProject) && newProject == old(newProject)
      ensures reply == Declined ==> alert == "Failed to create project. Please try again."
      ensures reply == Threw ==> alert == "Error creating project. Please try again."
    {
      isCreating := true;
      sent := CreatePayload(userName, newProject, now);
      reload := false;
      if reply == Accepted {
        showCreateProject := false;
        newProject := BlankDraft;
        reload := true;
        alert := "Project created successfully!";
      } else if reply == Declined {
        alert := "Failed to create project. Please try again.";
      } else {
        alert := "Error creating project. Please try again.";
      }
      isCreating := false;
    }

    method Add()
      modifies this`newProject
      ensures newProject == old(newProject).(milestones := AddMilestone(old(newProject).milestones))
    {
      newProject := newProject.(milestones := AddMilestone(newProject.milestones));
    }

    method Remove(i: int)
      modifies this`newProject
      ensures newProject == old(newProject).(milestones := RemoveMilestone(old(newProject).milestones, i))
    {
      newProject := newProject.(milestones := RemoveMilestone(newProject.milestones, i));
    }

    method Update(i: int, field: Field, value: string)
      modifies this`newProject
      ensures newProject == old(newProject).(milestones := UpdateMilestone(old(newProject).milestones, i, field, value))
    {
      newProject := newProject.(milestones := UpdateMilestone(newProject.milestones, i, field, value));
    }
  }
}
