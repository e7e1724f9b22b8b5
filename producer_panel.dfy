/** The producer dashboard panel: the producer's own projects, the creation
    of a project (prepended to the list), the local record of an uploaded
    proof, and the four status counters. The backend's replies are
    parameters: `None` when the call threw. */
module ProducerPanel {
  import opened Common
  import opened Seqs
  import opened MilestoneCard
  import opened ProjectCard

  // ---------------------------------------------------------------------
  // Own projects and counters
  // ---------------------------------------------------------------------

  function OwnedBy(userId: string): Project -> bool {
    (p: Project) => p.producerId == userId
  }

  datatype Stats = Stats(draft: nat, pending: nat, approved: nat, rejected: nat)

  /** `getStatusStats`: each counter is the number of projects in its
      status, and the four together never exceed the list. */
  function StatusStats(ps: seq<Project>): (r: Stats)
    ensures r.draft == |Filter(ps, StatusIs("Draft"))|
    ensures r.pending == |Filter(ps, StatusIs("Applied"))|
    ensures r.approved == |Filter(ps, StatusIs("Approved"))|
    ensures r.rejected == |Filter(ps, StatusIs("Rejected"))|
    ensures r.draft + r.pending + r.approved + r.rejected <= |ps|
  {
    CountIsFilterLength(ps, StatusIs("Draft"));
    CountIsFilterLength(ps, StatusIs("Applied"));
    CountIsFilterLength(ps, StatusIs("Approved"));
    CountIsFilterLength(ps, StatusIs("Rejected"));
    StatusCountsBounded(ps);
    Stats(Count(ps, StatusIs("Draft")), Count(ps, StatusIs("Applied")),
          Count(ps, StatusIs("Approved")), Count(ps, StatusIs("Rejected")))
  }

  lemma StatusCountsBounded(ps: seq<Project>)
    ensures Count(ps, StatusIs("Draft")) + Count(ps, StatusIs("Applied"))
            + Count(ps, StatusIs("Approved")) + Count(ps, StatusIs("Rejected")) <= |ps|
  {
    DistinctCountsBounded(ps, "Draft", "Applied", "Approved", "Rejected");
  }

  /** Four distinct statuses select disjoint sets of projects. */
  lemma {:induction false} DistinctCountsBounded(ps: seq<Project>, a: string, b: string, c: string, d: string)
    requires a != b && a != c && a != d && b != c && b != d && c != d
    ensures Count(ps, StatusIs(a)) + Count(ps, StatusIs(b)) + Count(ps, StatusIs(c)) + Count(ps, StatusIs(d)) <= |ps|
  {
    if ps != [] {
      DistinctCountsBounded(ps[1..], a, b, c, d);
    }
  }

  // ---------------------------------------------------------------------
  // Recording an uploaded proof
  // ---------------------------------------------------------------------

  /** `[...(m.proofUrls || []), url]`. */
  function AppendProof(m: Milestone, url: string): (r: Milestone)
    ensures HasProofs(r)
    ensures r.proofUrls.value == m.proofUrls.GetOr([]) + [url]
    ensures r.(proofUrls := m.proofUrls) == m
  {
    m.(proofUrls := Some(m.proofUrls.GetOr([]) + [url]))
  }

  /** The milestone list of a project after an upload: only an existing
      entry is touched. */
  function AppendProofAt(ms: seq<Milestone>, index: int, url: string): (r: seq<Milestone>)
    ensures |r| == |ms|
    ensures forall j :: 0 <= j < |ms| && j != index ==> r[j] == ms[j]
    ensures 0 <= index < |ms| ==> r[index] == AppendProof(ms[index], url)
  {
    if 0 <= index < |ms| then ms[index := AppendProof(ms[index], url)] else ms
  }

  function WithProof(index: int, url: string): Project -> Project {
    (p: Project) => p.(milestones := AppendProofAt(p.milestones, index, url))
  }

  /** `handleUploadProof`'s merge: every project with the id gets the url
      appended to the milestone at `index`, if it has one. */
  function RecordProof(ps: seq<Project>, projectId: string, index: int, url: string): (r: seq<Project>)
    ensures |r| == |ps|
    ensures forall i :: 0 <= i < |ps| && ps[i].id != projectId ==> r[i] == ps[i]
    ensures forall i :: 0 <= i < |ps| && ps[i].id == projectId ==>
              r[i] == ps[i].(milestones := AppendProofAt(ps[i].milestones, index, url))
  {
    MapWhere(ps, IdIs(projectId), WithProof(index, url))
  }

  /** After an upload the milestone has a proof: it is no longer offered
      for upload, and while undecided it shows as pending verification. */
  lemma UploadMovesToVerification(ps: seq<Project>, projectId: string, index: int, url: string, i: nat, role: string)
    requires i < |ps| && ps[i].id == projectId && 0 <= index < |ps[i].milestones|
    ensures var m := RecordProof(ps, projectId, index, url)[i].milestones[index];
            && !CanUploadProof(role, RecordProof(ps, projectId, index, url)[i], m)
            && (ps[i].milestones[index].verified.None? ==> Status(m) == PendingVerification)
  {
  }

  // ---------------------------------------------------------------------
  // The panel's state
  // ---------------------------------------------------------------------

  /** What `handleCreateProject` sends: the form's data with the user as
      producer. */
  datatype CreateRequest = CreateRequest(name: string, description: string, producerId: string, milestones: seq<Milestone>)

  const LoadFailed := Notice("Error", "Failed to load projects. Please try again.", true)
  const CreateFailed := Notice("Error", "Failed to create project. Please try again.", true)
  const UploadFailed := Notice("Upload Failed", "Failed to upload proof. Please try again.", true)

  class Panel {
    const userId: string
    var projects: seq<Project>
    var isLoading: bool
    var showCreateModal: bool

    constructor (userId: string)
      ensures this.userId == userId && projects == [] && isLoading && !showCreateModal
    {
      this.userId := userId;
      projects := [];
      isLoading := true;
      showCreateModal := false;
    }

    /** `loadProjects`: only the user's own projects are kept. */
    method Load(reply: Option<seq<Project>>) returns (n: Option<Notice>)
      modifies this`projects, this`isLoading
      ensures !isLoading
      ensures reply.Some? ==> projects == Filter(reply.value, OwnedBy(userId)) && n.None?
      ensures reply.None? ==> projects == old(projects) && n == Some(LoadFailed)
    {
      isLoading := true;
      n := None;
      if reply.Some? {
        projects := Filter(reply.value, OwnedBy(userId));
      } else {
        n := Some(LoadFailed);
      }
      isLoading := false;
    }

    /** `handleCreateProject`: the new project goes first and the modal
        closes; a failure keeps both. */
    method Create(name: string, description: string, ms: seq<Milestone>, reply: Option<Project>)
      returns (sent: CreateRequest, n: Notice)
      modifies this`projects, this`showCreateModal
      ensures sent == CreateRequest(name, description, userId, ms)
      ensures reply.Some? ==> projects == [reply.value] + old(projects) && !showCreateModal
      ensures reply.Some? ==> n == Notice("Project Created", "Your project application has been submitted successfully.", false)
      ensures reply.None? ==> projects == old(projects) && showCreateModal == old(showCreateModal) && n == CreateFailed
    {
      sent := CreateRequest(name, description, userId, ms);
      if reply.None? {
        return sent, CreateFailed;
      }
      projects := [reply.value] + projects;
      showCreateModal := false;
      n := Notice("Project Created", "Your project application has been submitted successfully.", false);
    }

    /** `handleUploadProof`: `url` is the upload's reply, `None` when it
        threw. */
    method UploadProof(projectId: string, milestoneIndex: int, url: Option<string>) returns (n: Notice)
      modifies this`projects
      ensures url.Some? ==> projects == RecordProof(old(projects), projectId, milestoneIndex, url.value)
      ensures url.Some? ==> n == Notice("Proof Uploaded", "Milestone proof has been uploaded successfully.", false)
      ensures url.None? ==> projects == old(projects) && n == UploadFailed
    {
      if url.None? {
        return UploadFailed;
      }
      projects := RecordProof(projects, projectId, milestoneIndex, url.value);
      n := Notice("Proof Uploaded", "Milestone proof has been uploaded successfully.", false);
    }
  }
}
