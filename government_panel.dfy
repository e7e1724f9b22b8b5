/** The government dashboard panel: tabs that select projects by status,
    the status counters, the update payloads of approve, reject, flag and
    lock, and the merge of each reply into the loaded list. The backend's
    reply is a parameter: `None` when the call threw. */
module GovernmentPanel {
  import opened Common
  import opened Seqs
  import opened MilestoneCard
  import opened ProjectCard

  // ---------------------------------------------------------------------
  // Tabs and counters
  // ---------------------------------------------------------------------

  function Everything(): Project -> bool {
    (p: Project) => true
  }

  function Nothing(): Project -> bool {
    (p: Project) => false
  }

  /** The predicate behind each tab of `getProjectsByStatus`. */
  function TabPredicate(tab: string): Project -> bool {
    if tab == "pending" then StatusIs("Applied")
    else if tab == "approved" then StatusIs("Approved")
    else if tab == "flagged" then StatusIs("Flagged")
    else if tab == "all" then Everything()
    else Nothing()
  }

  /** `getProjectsByStatus(tab)`. */
  function ProjectsByTab(ps: seq<Project>, tab: string): (r: seq<Project>)
    ensures tab == "pending" ==> r == Filter(ps, StatusIs("Applied"))
    ensures tab == "approved" ==> r == Filter(ps, StatusIs("Approved"))
    ensures tab == "flagged" ==> r == Filter(ps, StatusIs("Flagged"))
    ensures tab == "all" ==> r == ps
    ensures tab !in ["pending", "approved", "flagged", "all"] ==> r == []
  {
    FilterAll(ps, Everything());
    FilterNothing(ps);
    Filter(ps, TabPredicate(tab))
  }

  lemma FilterNothing(ps: seq<Project>)
    ensures Filter(ps, Nothing()) == []
  {
  }

  datatype Stats = Stats(pending: nat, approved: nat, flagged: nat, total: nat)

  /** `getStatusStats`: each counter is the length of its tab, and the three
      status counters together never exceed the total. */
  function StatusStats(ps: seq<Project>): (r: Stats)
    ensures r.pending == |ProjectsByTab(ps, "pending")|
    ensures r.approved == |ProjectsByTab(ps, "approved")|
    ensures r.flagged == |ProjectsByTab(ps, "flagged")|
    ensures r.total == |ProjectsByTab(ps, "all")|
    ensures r.pending + r.approved + r.flagged <= r.total
  {
    CountIsFilterLength(ps, StatusIs("Applied"));
    CountIsFilterLength(ps, StatusIs("Approved"));
    CountIsFilterLength(ps, StatusIs("Flagged"));
    TabCountsBounded(ps);
    Stats(Count(ps, StatusIs("Applied")), Count(ps, StatusIs("Approved")), Count(ps, StatusIs("Flagged")), |ps|)
  }

  /** Three distinct statuses select disjoint sets of projects. */
  lemma {:induction false} TabCountsBounded(ps: seq<Project>)
    ensures Count(ps, StatusIs("Applied")) + Count(ps, StatusIs("Approved")) + Count(ps, StatusIs("Flagged")) <= |ps|
  {
    if ps != [] {
      TabCountsBounded(ps[1..]);
    }
  }

  // ---------------------------------------------------------------------
  // Update payloads
  // ---------------------------------------------------------------------

  /** The fields a panel sends to `updateProject`; absent fields are not sent. */
  datatype Payload = Payload(
    status: Option<string>,
    grantTotal: Option<int>,
    milestones: Option<seq<Milestone>>,
    rejectionReason: Option<string>,
    flagReason: Option<string>,
    contractAddress: Option<string>,
    fundsLocked: Option<bool>)

  const NoFields := Payload(None, None, None, None, None, None, None)

  function ApprovePayload(grantAmount: int, ms: seq<Milestone>): Payload {
    NoFields.(status := Some("Approved"), grantTotal := Some(grantAmount), milestones := Some(ms))
  }

  function RejectPayload(reason: string): Payload {
    NoFields.(status := Some("Rejected"), rejectionReason := Some(reason))
  }

  function FlagPayload(reason: string): Payload {
    NoFields.(status := Some("Flagged"), flagReason := Some(reason))
  }

  /** The lock payload records the transaction hash as the contract address
      and never sends a status. */
  function LockPayload(txHash: string): (r: Payload)
    ensures r.status.None? && r.contractAddress == Some(txHash) && r.fundsLocked == Some(true)
  {
    NoFields.(contractAddress := Some(txHash), fundsLocked := Some(true))
  }

  function Take(s: string, n: nat): string {
    if |s| <= n then s else s[..n]
  }

  const LoadFailed := Notice("Error", "Failed to load projects. Please try again.", true)

  // ---------------------------------------------------------------------
  // The panel's state
  // ---------------------------------------------------------------------

  class Panel {
    var projects: seq<Project>
    var isLoading: bool
    var activeTab: string

    constructor ()
      ensures projects == [] && isLoading && activeTab == "pending"
    {
      projects := [];
      isLoading := true;
      activeTab := "pending";
    }

    /** `loadProjects`: a failed load keeps the list and shows an error. */
    method Load(reply: Option<seq<Project>>) returns (n: Option<Notice>)
      modifies this`projects, this`isLoading
      ensures !isLoading
      ensures reply.Some? ==> projects == reply.value && n.None?
      ensures reply.None? ==> projects == old(projects) && n == Some(LoadFailed)
    {
      isLoading := true;
      n := None;
      if reply.Some? {
        projects := reply.value;
      } else {
        n := Some(LoadFailed);
      }
      isLoading := false;
    }

    /** Sends the payload, then merges the reply into every project with
        the id; a failed call leaves the list as it was. */
    method Update(projectId: string, payload: Payload, reply: Option<Project>, done: Notice, failed: Notice)
      returns (sent: Payload, n: Notice)
      modifies this`projects
      ensures sent == payload
      ensures reply.Some? ==> projects == MergeById(old(projects), projectId, reply.value) && n == done
      ensures reply.None? ==> projects == old(projects) && n == failed
    {
      sent := payload;
      if reply.Some? {
        projects := MergeById(projects, projectId, reply.value);
        n := done;
      } else {
        n := failed;
      }
    }

    method ApproveProject(projectId: string, grantAmount: int, ms: seq<Milestone>, reply: Option<Project>)
      returns (sent: Payload, n: Notice)
      modifies this`projects
      ensures sent == ApprovePayload(grantAmount, ms)
      ensures reply.Some? ==> projects == MergeById(old(projects), projectId, reply.value) && n.title == "Project Approved"
      ensures reply.None? ==> projects == old(projects) && n == Notice("Error", "Failed to approve project. Please try again.", true)
    {
      sent, n := Update(projectId, ApprovePayload(grantAmount, ms), reply,
        Notice("Project Approved", "Project has been approved successfully. You can now lock funds.", false),
        Notice("Error", "Failed to approve project. Please try again.", true));
    }

    method RejectProject(projectId: string, reason: string, reply: Option<Project>)
      returns (sent: Payload, n: Notice)
      modifies this`projects
      ensures sent == RejectPayload(reason)
      ensures reply.Some? ==> projects == MergeById(old(projects), projectId, reply.value) && n.title == "Project Rejected"
      ensures reply.None? ==> projects == old(projects) && n == Notice("Error", "Failed to reject project. Please try again.", true)
    {
      sent, n := Update(projectId, RejectPayload(reason), reply,
        Notice("Project Rejected", "Project has been rejected.", false),
        Notice("Error", "Failed to reject project. Please try again.", true));
    }

    method FlagProject(projectId: string, reason: string, reply: Option<Project>)
      returns (sent: Payload, n: Notice)
      modifies this`projects
      ensures sent == FlagPayload(reason)
      ensures reply.Some? ==> projects == MergeById(old(projects), projectId, reply.value) && n.title == "Project Flagged"
      ensures reply.None? ==> projects == old(projects) && n == Notice("Error", "Failed to flag project. Please try again.", true)
    {
      sent, n := Update(projectId, FlagPayload(reason), reply,
        Notice("Project Flagged", "Project has been flagged for auditor review.", false),
        Notice("Error", "Failed to flag project. Please try again.", true));
    }

    /** `handleLockFunds`: `txHash` is the chain call's hash (`None` when it
        threw) and `saved` whether the update call succeeded. The local list
        is not touched either way. */
    method LockFunds(projectId: string, amount: int, txHash: Option<string>, saved: bool)
      returns (sent: Option<Payload>, n: Notice)
      ensures sent == if txHash.Some? then Some(LockPayload(txHash.value)) else None
      ensures txHash.Some? && saved
              ==> n == Notice("Funds Locked", "Funds locked on blockchain. Transaction: " + Take(txHash.value, 10) + "...", false)
      ensures !(txHash.Some? && saved) ==> n == Notice("Error", "Failed to lock funds on blockchain. Please try again.", true)
    {
      if txHash.None? {
        return None, Notice("Error", "Failed to lock funds on blockchain. Please try again.", true);
      }
      sent := Some(LockPayload(txHash.value));
      if saved {
        n := Notice("Funds Locked", "Funds locked on blockchain. Transaction: " + Take(txHash.value, 10) + "...", false);
      } else {
        n := Notice("Error", "Failed to lock funds on blockchain. Please try again.", true);
      }
    }
  }
}
