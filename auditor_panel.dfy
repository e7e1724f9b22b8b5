/** The auditor dashboard panel: the projects an auditor sees, the review
    queues and counters over their milestones, the merge of a verification
    reply, and the milestone cards of the pending tab. */
module AuditorPanel {
  import opened Common
  import opened Seqs
  import opened MilestoneCard
  import opened ProjectCard

  // ---------------------------------------------------------------------
  // Queues
  // ---------------------------------------------------------------------

  /** Approved and Flagged projects need an auditor. */
  predicate NeedsAuditor(p: Project) {
    p.status == "Approved" || p.status == "Flagged"
  }

  /** A milestone awaits review when it has proofs and is not verified
      (`verified` absent or false). */
  predicate NeedsReview(m: Milestone) {
    HasProofs(m) && m.verified != Some(true)
  }

  /** `getProjectsWithPendingMilestones`' test. */
  predicate PendingReview(p: Project) {
    exists i | 0 <= i < |p.milestones| :: NeedsReview(p.milestones[i])
  }

  /** `getCompletedAudits`' test: every milestone verified. */
  predicate AuditComplete(p: Project) {
    forall i :: 0 <= i < |p.milestones| ==> p.milestones[i].verified == Some(true)
  }

  predicate IsFlagged(p: Project) {
    p.status == "Flagged"
  }

  /** No project is both pending review and completely audited, and a
      project without milestones counts as completely audited. */
  lemma QueuesDisjoint(p: Project)
    ensures !(PendingReview(p) && AuditComplete(p))
    ensures p.milestones == [] ==> AuditComplete(p) && !PendingReview(p)
  {
  }

  /** The number of milestones of one project that await review. */
  function ReviewCount(p: Project): (n: nat)
    ensures n > 0 <==> PendingReview(p)
  {
    assert PendingReview(p) <==> exists m :: m in p.milestones && NeedsReview(m) by {
      if PendingReview(p) {
        var i :| 0 <= i < |p.milestones| && NeedsReview(p.milestones[i]);
        assert p.milestones[i] in p.milestones;
      }
    }
    Count(p.milestones, NeedsReview)
  }

  /** `getTotalMilestonesNeedingReview`. */
  function MilestonesNeedingReview(ps: seq<Project>): nat {
    if ps == [] then 0 else ReviewCount(ps[0]) + MilestonesNeedingReview(ps[1..])
  }

  /** Every pending project contributes at least one milestone, so the
      milestone counter is at least the number of pending projects. */
  lemma {:induction false} NeedingReviewCoversPending(ps: seq<Project>)
    ensures Count(ps, PendingReview) <= MilestonesNeedingReview(ps)
  {
    if ps != [] {
      NeedingReviewCoversPending(ps[1..]);
    }
  }

  datatype Stats = Stats(pendingMilestones: nat, flaggedProjects: nat, completedAudits: nat, totalProjects: nat)

  /** `getStatusStats`: the flagged and completed counters are the lengths
      of their tabs, and neither exceeds the total. */
  function StatusStats(ps: seq<Project>): (r: Stats)
    ensures r.pendingMilestones == MilestonesNeedingReview(ps) >= Count(ps, PendingReview)
    ensures r.flaggedProjects == |Filter(ps, IsFlagged)| <= r.totalProjects
    ensures r.completedAudits == |Filter(ps, AuditComplete)| <= r.totalProjects
    ensures r.totalProjects == |ps|
  {
    NeedingReviewCoversPending(ps);
    CountIsFilterLength(ps, IsFlagged);
    CountIsFilterLength(ps, AuditComplete);
    Stats(MilestonesNeedingReview(ps), Count(ps, IsFlagged), Count(ps, AuditComplete), |ps|)
  }

  // ---------------------------------------------------------------------
  // The pending tab's milestone cards
  // ---------------------------------------------------------------------

  /** A card of the pending tab: the milestone shown and the index its
      verify button reports. */
  datatype Card = Card(milestone: Milestone, index: int)

  function Positioned(ms: seq<Milestone>, from: nat): (r: seq<Card>)
    ensures |r| == |ms|
    ensures forall k :: 0 <= k < |r| ==> r[k] == Card(ms[k], from + k)
  {
    if ms == [] then [] else [Card(ms[0], from)] + Positioned(ms[1..], from + 1)
  }

  /** The cards as written: the awaiting milestones are filtered first and
      then numbered, so each card reports its place in the filtered list. */
  function PendingCardsAsWritten(ms: seq<Milestone>): (r: seq<Card>)
    ensures forall k :: 0 <= k < |r| ==> r[k].index == k && NeedsReview(r[k].milestone)
  {
    Positioned(Filter(ms, NeedsReview), 0)
  }

  /** The cards with each milestone's own position in the project, as the
      verify call expects. */
  function PendingCardsFrom(ms: seq<Milestone>, offset: nat): (r: seq<Card>)
    ensures forall k :: 0 <= k < |r| ==>
              && offset <= r[k].index < offset + |ms|
              && ms[r[k].index - offset] == r[k].milestone
              && NeedsReview(r[k].milestone)
    ensures forall k, l :: 0 <= k < l < |r| ==> r[k].index < r[l].index
  {
    if ms == [] then []
    else
      var rest := PendingCardsFrom(ms[1..], offset + 1);
      if NeedsReview(ms[0]) then [Card(ms[0], offset)] + rest else rest
  }

  function PendingCards(ms: seq<Milestone>): (r: seq<Card>)
    ensures forall k :: 0 <= k < |r| ==> 0 <= r[k].index < |ms| && ms[r[k].index] == r[k].milestone
    ensures forall k :: 0 <= k < |r| ==> NeedsReview(r[k].milestone)
  {
    PendingCardsFrom(ms, 0)
  }

  /** Both versions show the same milestones in the same order; only the
      reported indexes differ. */
  lemma {:induction false} SameMilestonesShown(ms: seq<Milestone>, offset: nat)
    ensures |PendingCardsFrom(ms, offset)| == |Filter(ms, NeedsReview)|
    ensures forall k :: 0 <= k < |Filter(ms, NeedsReview)| ==>
              PendingCardsFrom(ms, offset)[k].milestone == Filter(ms, NeedsReview)[k]
  {
    if ms != [] {
      SameMilestonesShown(ms[1..], offset + 1);
      assert ms == [ms[0]] + ms[1..];
      FilterConcat([ms[0]], ms[1..], NeedsReview);
    }
  }

  /** A project whose first milestone still awaits its proof and whose
      second has one: the only card reports index 0, so verifying it would
      act on the first milestone, which has no proof; the corrected card
      reports index 1. */
  lemma PendingIndexIsFilteredPosition()
    ensures var awaiting := Milestone(0, "Site survey", 100, None, None, None);
            var proven := Milestone(1, "Foundation", 200, None, Some(["proof.pdf"]), None);
            var ms := [awaiting, proven];
            && PendingCardsAsWritten(ms) == [Card(proven, 0)]
            && ms[PendingCardsAsWritten(ms)[0].index] != proven
            && PendingCards(ms) == [Card(proven, 1)]
  {
    var awaiting := Milestone(0, "Site survey", 100, None, None, None);
    var proven := Milestone(1, "Foundation", 200, None, Some(["proof.pdf"]), None);
    var ms := [awaiting, proven];
    assert ms[1..] == [proven] && ms[1..][1..] == [];
    assert Filter(ms, NeedsReview) == [proven];
    assert Positioned([proven], 0) == [Card(proven, 0)];
  }

  // ---------------------------------------------------------------------
  // The panel's state
  // ---------------------------------------------------------------------

  const LoadFailed := Notice("Error", "Failed to load projects. Please try again.", true)

  class Panel {
    var projects: seq<Project>
    var isLoading: bool
    var activeTab: string

    constructor ()
      ensures projects == [] && isLoading && activeTab == "pending"
    {
      projects := [];
      isLoading := true;
      activeTab := "pending";
    }

    /** `loadProjects`: only projects that need an auditor are kept. */
    method Load(reply: Option<seq<Project>>) returns (n: Option<Notice>)
      modifies this`projects, this`isLoading
      ensures !isLoading
      ensures reply.Some? ==> projects == Filter(reply.value, NeedsAuditor) && n.None?
      ensures reply.None? ==> projects == old(projects) && n == Some(LoadFailed)
      ensures forall p :: p in projects ==> NeedsAuditor(p) || p in old(projects)
    {
      isLoading := true;
      n := None;
      if reply.Some? {
        projects := Filter(reply.value, NeedsAuditor);
      } else {
        n := Some(LoadFailed);
      }
      isLoading := false;
    }

    /** `handleVerifyMilestone`: the reply is merged into every project with
        the id; the toast names the action. */
    method VerifyMilestone(projectId: string, action: string, reply: Option<Project>) returns (n: Notice)
      modifies this`projects
      ensures reply.Some? ==> projects == MergeById(old(projects), projectId, reply.value)
      ensures reply.Some? ==> n.title == (if action == "approve" then "Milestone Approved" else "Milestone Rejected")
      ensures reply.None? ==> projects == old(projects) && n == Notice("Error", "Failed to verify milestone. Please try again.", true)
    {
      if reply.None? {
        return Notice("Error", "Failed to verify milestone. Please try again.", true);
      }
      projects := MergeById(projects, projectId, reply.value);
      var word := if action == "approve" then "approved" else "rejected";
      n := Notice(if action == "approve" then "Milestone Approved" else "Milestone Rejected",
                  "Milestone has been " + word + " successfully.", false);
    }
  }
}
