/** The producer dashboard page: its own project records with staged
    milestones, the search box, the counters, the subsidy application that
    appends a project, and the milestone upload that replaces one milestone
    by id. Backend replies are parameters: `None` when the call threw. */
module ProducerPage {
  import opened Common
  import opened Text
  import opened Seqs

  datatype Stage = StageCompleted | StageInProgress | StageUpcoming | StageOverdue

  datatype PageMilestone = PageMilestone(
    id: string, title: string, description: string, deadline: string,
    status: Stage, submissionDate: Option<string>)

  datatype PageProject = PageProject(
    id: string, name: string, description: string, status: string,
    createdDate: Option<string>, milestones: seq<PageMilestone>)

  // ---------------------------------------------------------------------
  // Search and counters
  // ---------------------------------------------------------------------

  /** The search test: name, description or status contains the term,
      ignoring case. */
  predicate Matches(p: PageProject, term: string) {
    || ContainsIgnoringCase(p.name, term)
    || ContainsIgnoringCase(p.description, term)
    || ContainsIgnoringCase(p.status, term)
  }

  function MatchesTerm(term: string): PageProject -> bool {
    (p: PageProject) => Matches(p, term)
  }

  /** `filteredProjects`: the matching projects in their order; an empty
      term keeps them all. */
  function Search(ps: seq<PageProject>, term: string): (r: seq<PageProject>)
    ensures forall p :: p in r <==> p in ps && Matches(p, term)
    ensures |r| <= |ps|
    ensures term == "" ==> r == ps
  {
    EmptyTermKeepsAll(ps, term);
    Filter(ps, MatchesTerm(term))
  }

  lemma EmptyTermKeepsAll(ps: seq<PageProject>, term: string)
    ensures term == "" ==> Filter(ps, MatchesTerm(term)) == ps
  {
    if term == "" {
      forall p | p in ps ensures MatchesTerm(term)(p) {
        ContainsIgnoringCaseEmpty(p.name);
      }
      FilterAll(ps, MatchesTerm(term));
    }
  }

  function StatusIs(status: string): PageProject -> bool {
    (p: PageProject) => p.status == status
  }

  function MilestoneCount(p: PageProject): int {
    |p.milestones|
  }

  function IsCompletedStage(m: PageMilestone): bool {
    m.status == StageCompleted
  }

  function CompletedCount(p: PageProject): int {
    Count(p.milestones, IsCompletedStage)
  }

  datatype Stats = Stats(totalProjects: nat, approvedProjects: nat, pendingProjects: nat, totalMilestones: int, completedMilestones: int)

  /** The page's counters over all projects (not only the matching ones). */
  function PageStats(ps: seq<PageProject>): (r: Stats)
    ensures r.totalProjects == |ps|
    ensures r.approvedProjects == |Filter(ps, StatusIs("Approved"))|
    ensures r.pendingProjects == |Filter(ps, StatusIs("Pending"))|
    ensures r.approvedProjects + r.pendingProjects <= r.totalProjects
    ensures r.totalMilestones == SumOf(ps, MilestoneCount)
    ensures r.completedMilestones == SumOf(ps, CompletedCount)
    ensures 0 <= r.completedMilestones <= r.totalMilestones
  {
    CountIsFilterLength(ps, StatusIs("Approved"));
    CountIsFilterLength(ps, StatusIs("Pending"));
    TwoStatusesBounded(ps, "Approved", "Pending");
    CompletedWithinMilestones(ps);
    Stats(|ps|, Count(ps, StatusIs("Approved")), Count(ps, StatusIs("Pending")),
          SumOf(ps, MilestoneCount), SumOf(ps, CompletedCount))
  }

  /** Two distinct statuses select disjoint sets of projects. */
  lemma {:induction false} TwoStatusesBounded(ps: seq<PageProject>, a: string, b: string)
    requires a != b
    ensures Count(ps, StatusIs(a)) + Count(ps, StatusIs(b)) <= |ps|
  {
    if ps != [] {
      TwoStatusesBounded(ps[1..], a, b);
    }
  }

  /** Completed milestones are among all milestones, project by project. */
  lemma {:induction false} CompletedWithinMilestones(ps: seq<PageProject>)
    ensures 0 <= SumOf(ps, CompletedCount) <= SumOf(ps, MilestoneCount)
  {
    if ps != [] {
      CompletedWithinMilestones(ps[1..]);
      assert CompletedCount(ps[0]) <= MilestoneCount(ps[0]);
    }
  }

  // ---------------------------------------------------------------------
  // Replacing an uploaded milestone
  // ---------------------------------------------------------------------

  function MilestoneIdIs(id: string): PageMilestone -> bool {
    (m: PageMilestone) => m.id == id
  }

  function ProjectIdIs(id: string): PageProject -> bool {
    (p: PageProject) => p.id == id
  }

  function ReplaceIn(milestoneId: string, updated: PageMilestone): PageProject -> PageProject {
    (p: PageProject) => p.(milestones := MapWhere(p.milestones, MilestoneIdIs(milestoneId), (m: PageMilestone) => updated))
  }

  /** `handleMilestoneUpload`'s merge: inside each project with the id,
      every milestone with the milestone id becomes the reply; nothing else
      changes. */
  function ReplaceMilestone(ps: seq<PageProject>, projectId: string, milestoneId: string, updated: PageMilestone)
    : (r: seq<PageProject>)
    ensures |r| == |ps|
    ensures forall i :: 0 <= i < |ps| && ps[i].id != projectId ==> r[i] == ps[i]
    ensures forall i :: 0 <= i < |ps| && ps[i].id == projectId ==>
              && r[i].(milestones := ps[i].milestones) == ps[i]
              && |r[i].milestones| == |ps[i].milestones|
              && (forall j :: 0 <= j < |ps[i].milestones| ==>
                    r[i].milestones[j] == if ps[i].milestones[j].id == milestoneId then updated else ps[i].milestones[j])
  {
    MapWhere(ps, ProjectIdIs(projectId), ReplaceIn(milestoneId, updated))
  }

  /** The Submit button of the detail view: offered for a milestone not yet
      completed of an Approved project. */
  predicate SubmitOffered(p: PageProject, m: PageMilestone) {
    m.status != StageCompleted && p.status == "Approved"
  }

  /** Once a reply reporting the milestone completed has been merged into
      the list, selecting that project from the list again shows the
      milestone without its Submit button. */
  lemma ReselectedClosesSubmit(ps: seq<PageProject>, projectId: string, milestoneId: string, updated: PageMilestone,
                               p: PageProject, m: PageMilestone)
    requires updated.status == StageCompleted
    requires p in ReplaceMilestone(ps, projectId, milestoneId, updated) && p.id == projectId
    requires m in p.milestones && m.id == milestoneId
    ensures !SubmitOffered(p, m)
  {
    var r := ReplaceMilestone(ps, projectId, milestoneId, updated);
    var i :| 0 <= i < |r| && r[i] == p;
    var j :| 0 <= j < |p.milestones| && p.milestones[j] == m;
    assert ps[i].id == projectId;
  }

  /** The detail view is a copy of the list entry taken when it was
      selected, and the upload handler refreshes only the list. So a
      completed reply leaves the open view offering Submit for the very
      milestone the list now shows completed. */
  lemma StaleDetailKeepsSubmit(ps: seq<PageProject>, i: nat, j: nat, updated: PageMilestone)
    requires i < |ps| && j < |ps[i].milestones|
    requires SubmitOffered(ps[i], ps[i].milestones[j])
    requires updated.status == StageCompleted
    ensures var view := ps[i];
            var r := ReplaceMilestone(ps, ps[i].id, ps[i].milestones[j].id, updated);
            && SubmitOffered(view, view.milestones[j])
            && !SubmitOffered(r[i], r[i].milestones[j])
            && view != r[i]
  {
  }

  /** The detail view after the upload as evidently intended: the selected
      project takes the same replacement as the list. */
  function RefreshView(view: Option<PageProject>, projectId: string, milestoneId: string, updated: PageMilestone)
    : (r: Option<PageProject>)
    ensures r.None? <==> view.None?
  {
    if view.None? then None else Some(ReplaceMilestone([view.value], projectId, milestoneId, updated)[0])
  }

  /** A refreshed view stays the copy of its list entry. */
  lemma RefreshViewTracksList(ps: seq<PageProject>, i: nat, projectId: string, milestoneId: string, updated: PageMilestone)
    requires i < |ps|
    ensures RefreshView(Some(ps[i]), projectId, milestoneId, updated)
            == Some(ReplaceMilestone(ps, projectId, milestoneId, updated)[i])
  {
    var one := ReplaceMilestone([ps[i]], projectId, milestoneId, updated)[0];
    var all := ReplaceMilestone(ps, projectId, milestoneId, updated)[i];
    assert one.milestones == all.milestones;
  }

  /** With the refreshed view, a completed reply closes the Submit button
      of the open detail view at once. */
  lemma RefreshedDetailClosesSubmit(view: PageProject, j: nat, updated: PageMilestone)
    requires j < |view.milestones|
    requires updated.status == StageCompleted
    ensures var v := RefreshView(Some(view), view.id, view.milestones[j].id, updated).value;
            j < |v.milestones| && !SubmitOffered(v, v.milestones[j])
  {
    var v := RefreshView(Some(view), view.id, view.milestones[j].id, updated).value;
    RefreshViewTracksList([view], 0, view.id, view.milestones[j].id, updated);
  }

  // ---------------------------------------------------------------------
  // The page's state
  // ---------------------------------------------------------------------

  datatype NewProject = NewProject(name: string, description: string, documents: Option<string>)

  const EmptyNewProject := NewProject("", "", None)

  datatype UploadForm = UploadForm(projectId: string, milestoneId: string, files: Option<string>, notes: string)

  const EmptyUpload := UploadForm("", "", None, "")

  class Page {
    var projects: seq<PageProject>
    var searchTerm: string
    var newProject: NewProject
    var milestoneUpload: UploadForm
    var showSubsidyForm: bool
    var showMilestoneUpload: bool
    /** The project whose detail view is open: a copy of a list entry. */
    var selectedProject: Option<PageProject>

    constructor (seed: seq<PageProject>)
      ensures projects == seed && searchTerm == "" && newProject == EmptyNewProject
      ensures milestoneUpload == EmptyUpload && !showSubsidyForm && !showMilestoneUpload
      ensures selectedProject.None?
    {
      projects := seed;
      selectedProject := None;
      searchTerm := "";
      newProject := EmptyNewProject;
      milestoneUpload := EmptyUpload;
      showSubsidyForm := false;
      showMilestoneUpload := false;
    }

    /** The initial fetch replaces the list; a failure keeps it. */
    method Load(reply: Option<seq<PageProject>>)
      modifies this`projects
      ensures projects == if reply.Some? then reply.value else old(projects)
    {
      if reply.Some? {
        projects := reply.value;
      }
    }

    /** `handleApplySubsidy`: the created project goes last, the form is
        reset and hidden; a failure changes nothing. */
    method ApplySubsidy(reply: Option<PageProject>) returns (sent: NewProject)
      modifies this`projects, this`newProject, this`showSubsidyForm
      ensures sent == old(newProject)
      ensures reply.Some? ==> projects == old(projects) + [reply.value] && newProject == EmptyNewProject && !showSubsidyForm
      ensures reply.None? ==> projects == old(projects) && newProject == old(newProject) && showSubsidyForm == old(showSubsidyForm)
    {
      sent := newProject;
      if reply.Some? {
        projects := projects + [reply.value];
        newProject := EmptyNewProject;
        showSubsidyForm := false;
      }
    }

    /** "View Details" on the `i`-th matching project: the detail view opens
        on a copy of that list entry. */
    method Select(i: nat)
      requires i < |Search(projects, searchTerm)|
      modifies this`selectedProject
      ensures selectedProject == Some(Search(projects, searchTerm)[i])
      ensures selectedProject.value in projects && Matches(selectedProject.value, searchTerm)
    {
      var shown := Search(projects, searchTerm);
      assert shown[i] in shown;
      selectedProject := Some(shown[i]);
    }

    /** "Back to Dashboard": the detail view closes. */
    method Back()
      modifies this`selectedProject
      ensures selectedProject.None?
    {
      selectedProject := None;
    }

    /** The Submit button's click: remembers the target and opens the
        upload form. */
    method OpenUpload(p: PageProject, m: PageMilestone)
      modifies this`milestoneUpload, this`showMilestoneUpload
      ensures milestoneUpload == UploadForm(p.id, m.id, None, "") && showMilestoneUpload
    {
      milestoneUpload := UploadForm(p.id, m.id, None, "");
      showMilestoneUpload := true;
    }

    /** `handleMilestoneUpload`: the reply replaces the milestone in the
        list, then the upload form is cleared and hidden; a failure changes
        nothing. The open detail view is left as it was. */
    method MilestoneUpload(reply: Option<PageMilestone>) returns (sent: UploadForm)
      modifies this`projects, this`milestoneUpload, this`showMilestoneUpload
      ensures sent == old(milestoneUpload)
      ensures reply.Some? ==> projects == ReplaceMilestone(old(projects), sent.projectId, sent.milestoneId, reply.value)
      ensures reply.Some? ==> milestoneUpload == EmptyUpload && !showMilestoneUpload
      ensures reply.None? ==> projects == old(projects) && milestoneUpload == old(milestoneUpload)
                              && showMilestoneUpload == old(showMilestoneUpload)
      ensures selectedProject == old(selectedProject)
    {
      sent := milestoneUpload;
      if reply.Some? {
        projects := ReplaceMilestone(projects, sent.projectId, sent.milestoneId, reply.value);
        milestoneUpload := EmptyUpload;
        showMilestoneUpload := false;
      }
    }

    /** The upload as evidently intended: the open detail view takes the
        same replacement as the list, so a view that was a copy of a list
        entry stays a copy of it. */
    method MilestoneUploadRefreshing(reply: Option<PageMilestone>) returns (sent: UploadForm)
      modifies this`projects, this`milestoneUpload, this`showMilestoneUpload, this`selectedProject
      ensures sent == old(milestoneUpload)
      ensures reply.Some? ==> projects == ReplaceMilestone(old(projects), sent.projectId, sent.milestoneId, reply.value)
      ensures reply.Some? ==> selectedProject == RefreshView(old(selectedProject), sent.projectId, sent.milestoneId, reply.value)
      ensures reply.Some? ==> milestoneUpload == EmptyUpload && !showMilestoneUpload
      ensures reply.Some? ==> forall i :: 0 <= i < |old(projects)| && old(selectedProject) == Some(old(projects)[i])
                                ==> selectedProject == Some(projects[i])
      ensures reply.None? ==> projects == old(projects) && milestoneUpload == old(milestoneUpload)
                              && showMilestoneUpload == old(showMilestoneUpload) && selectedProject == old(selectedProject)
    {
      sent := milestoneUpload;
      if reply.Some? {
        forall i | 0 <= i < |projects| && selectedProject == Some(projects[i])
          ensures RefreshView(selectedProject, sent.projectId, sent.milestoneId, reply.value)
                  == Some(ReplaceMilestone(projects, sent.projectId, sent.milestoneId, reply.value)[i])
        {
          RefreshViewTracksList(projects, i, sent.projectId, sent.milestoneId, reply.value);
        }
        selectedProject := RefreshView(selectedProject, sent.projectId, sent.milestoneId, reply.value);
        projects := ReplaceMilestone(projects, sent.projectId, sent.milestoneId, reply.value);
        milestoneUpload := EmptyUpload;
        showMilestoneUpload := false;
      }
    }
  }
}
