/** The project card: which actions each role is offered in which status,
    the proof-upload permission, and the checks made before an approval,
    rejection or flag is forwarded. Statuses are the client's strings. */
module ProjectCard {
  import opened Common
  import opened Text
  import opened Seqs
  import opened MilestoneCard

  /** The client's view of a project, as the card and the dashboard panels
      receive it. */
  datatype Project = Project(
    id: string,
    name: string,
    description: string,
    producerId: string,
    producerName: string,
    status: string,
    grantTotal: Option<int>,
    milestones: seq<Milestone>,
    contractAddress: Option<string>,
    createdAt: int,
    updatedAt: int)

  /** `canUploadProof`: a producer may upload to a milestone of an Approved
      project that has no proofs yet. */
  predicate CanUploadProof(role: string, p: Project, m: Milestone) {
    role == "Producer" && p.status == "Approved" && !HasProofs(m)
  }

  /** Once a milestone has a proof, no role may upload to it again. */
  lemma UploadClosesUpload(role: string, p: Project, m: Milestone, url: string)
    requires m.proofUrls.Some?
    ensures !CanUploadProof(role, p, m.(proofUrls := Some(m.proofUrls.value + [url])))
  {
  }

  // ---------------------------------------------------------------------
  // Lists of projects: status counts and merging a reply by id
  // ---------------------------------------------------------------------

  function StatusIs(status: string): Project -> bool {
    (p: Project) => p.status == status
  }

  function IdIs(id: string): Project -> bool {
    (p: Project) => p.id == id
  }

  /** `{ ...p, ...u }` for a reply `u`: every field comes from the reply,
      except that an optional field the reply leaves out keeps `p`'s value. */
  function MergeReply(p: Project, u: Project): (r: Project)
    ensures r.(grantTotal := u.grantTotal, contractAddress := u.contractAddress) == u
    ensures r.grantTotal == (if u.grantTotal.Some? then u.grantTotal else p.grantTotal)
    ensures r.contractAddress == (if u.contractAddress.Some? then u.contractAddress else p.contractAddress)
  {
    u.(grantTotal := if u.grantTotal.Some? then u.grantTotal else p.grantTotal,
       contractAddress := if u.contractAddress.Some? then u.contractAddress else p.contractAddress)
  }

  /** `projects.map(p => p._id === id ? { ...p, ...u } : p)`. */
  function MergeById(ps: seq<Project>, id: string, u: Project): (r: seq<Project>)
    ensures |r| == |ps|
    ensures forall i :: 0 <= i < |ps| && ps[i].id == id ==> r[i] == MergeReply(ps[i], u)
    ensures forall i :: 0 <= i < |ps| && ps[i].id != id ==> r[i] == ps[i]
  {
    MapWhere(ps, IdIs(id), (p: Project) => MergeReply(p, u))
  }

  /** Merging the same reply twice is merging it once, and a list without
      the id is left as it is. */
  lemma MergeByIdIdempotent(ps: seq<Project>, id: string, u: Project)
    requires u.id == id
    ensures MergeById(MergeById(ps, id, u), id, u) == MergeById(ps, id, u)
    ensures (forall p :: p in ps ==> p.id != id) ==> MergeById(ps, id, u) == ps
  {
    var once := MergeById(ps, id, u);
    var twice := MergeById(once, id, u);
    assert forall i :: 0 <= i < |ps| ==> twice[i] == once[i];
    if forall p :: p in ps ==> p.id != id {
      assert forall i :: 0 <= i < |ps| ==> ps[i] in ps;
    }
  }

  // ---------------------------------------------------------------------
  // Offered actions
  // ---------------------------------------------------------------------

  datatype Action = SubmitApplication | Approve | Reject | LockFunds(amount: int) | Flag | ViewDetails

  /** The action row, in display order; a read-only card has none. */
  function Actions(role: string, p: Project, readonly: bool): (r: seq<Action>)
    ensures readonly <==> r == []
    ensures SubmitApplication in r <==> !readonly && role == "Producer" && p.status == "Draft"
    ensures Approve in r <==> !readonly && role == "Government" && p.status == "Applied"
    ensures Reject in r <==> Approve in r
    ensures forall a :: a in r && a.LockFunds? ==> a.amount == p.grantTotal.GetOr(0)
    ensures (exists a :: a in r && a.LockFunds?)
              <==> !readonly && role == "Government" && p.status == "Approved" && !IsTruthy(p.contractAddress)
    ensures Flag in r <==> !readonly && role == "Government" && (p.status == "Approved" || p.status == "Applied")
    ensures ViewDetails in r <==> !readonly
  {
    if readonly then []
    else
      var submit := if role == "Producer" && p.status == "Draft" then [SubmitApplication] else [];
      var decide := if role == "Government" && p.status == "Applied" then [Approve, Reject] else [];
      var lock := if role == "Government" && p.status == "Approved" && !IsTruthy(p.contractAddress)
                  then [LockFunds(p.grantTotal.GetOr(0))] else [];
      var flag := if role == "Government" && (p.status == "Approved" || p.status == "Applied") then [Flag] else [];
      var r := submit + decide + lock + flag + [ViewDetails];
      assert forall a :: a in r <==> a in submit || a in decide || a in lock || a in flag || a == ViewDetails;
      assert r[|r| - 1] == ViewDetails;
      assert lock != [] ==> lock[0] in r;
      r
  }

  /** Every action that approves or rejects also has a flag beside it, a
      producer is never offered a government action, and the grant is
      never offered both for approval and for locking. */
  lemma ActionsConsistent(role: string, p: Project, readonly: bool)
    ensures Approve in Actions(role, p, readonly) ==> Flag in Actions(role, p, readonly)
    ensures role == "Producer" ==> forall a :: a in Actions(role, p, readonly) ==> a == SubmitApplication || a == ViewDetails
    ensures !(Approve in Actions(role, p, readonly) && exists a :: a in Actions(role, p, readonly) && a.LockFunds?)
  {
    var r := Actions(role, p, readonly);
    if role == "Producer" {
      forall a | a in r ensures a == SubmitApplication || a == ViewDetails {
      }
    }
  }

  // ---------------------------------------------------------------------
  // Submit handlers
  // ---------------------------------------------------------------------

  datatype Decision =
    | ApproveRequest(projectId: string, grantAmount: int, milestones: seq<Milestone>)
    | RejectRequest(projectId: string, reason: string)
    | FlagRequest(projectId: string, reason: string)

  /** `handleApproveSubmit`: the grant amount must be positive. */
  function DecideApprove(p: Project, grantAmount: int): (r: Outcome<Decision>)
    ensures r.Forward? <==> grantAmount > 0
    ensures r.Forward? ==> r.event == ApproveRequest(p.id, grantAmount, p.milestones)
    ensures r.Refused? ==> r.title == "Invalid Amount"
  {
    if grantAmount <= 0 then Refused("Invalid Amount", "Grant amount must be greater than 0")
    else Forward(ApproveRequest(p.id, grantAmount, p.milestones))
  }

  /** `handleRejectSubmit`: the reason must not be blank; it is forwarded
      untrimmed. */
  function DecideReject(p: Project, reason: string): (r: Outcome<Decision>)
    ensures r.Forward? <==> !IsBlank(reason)
    ensures r.Forward? ==> r.event == RejectRequest(p.id, reason)
    ensures r.Refused? ==> r.title == "Reason Required"
  {
    if Trim(reason) == "" then Refused("Reason Required", "Please provide a reason for rejection")
    else Forward(RejectRequest(p.id, reason))
  }

  /** `handleFlagSubmit`: as for a rejection. */
  function DecideFlag(p: Project, reason: string): (r: Outcome<Decision>)
    ensures r.Forward? <==> !IsBlank(reason)
    ensures r.Forward? ==> r.event == FlagRequest(p.id, reason)
    ensures r.Refused? ==> r.title == "Reason Required"
  {
    if Trim(reason) == "" then Refused("Reason Required", "Please provide a reason for flagging")
    else Forward(FlagRequest(p.id, reason))
  }

  /** The card's local state: three modals, the grant amount and two reasons. */
  class CardState {
    var showApproveModal: bool
    var showRejectModal: bool
    var showFlagModal: bool
    var grantAmount: int
    var rejectionReason: string
    var flagReason: string

    /** The grant amount starts at the project's grant, or 0. */
    constructor (p: Project)
      ensures !showApproveModal && !showRejectModal && !showFlagModal
      ensures grantAmount == p.grantTotal.GetOr(0)
      ensures rejectionReason == "" && flagReason == ""
    {
      showApproveModal := false;
      showRejectModal := false;
      showFlagModal := false;
      grantAmount := p.grantTotal.GetOr(0);
      rejectionReason := "";
      flagReason := "";
    }

    /** A refused approval keeps the modal open. */
    method ApproveSubmit(p: Project) returns (r: Outcome<Decision>)
      modifies this`showApproveModal
      ensures r == DecideApprove(p, grantAmount)
      ensures showApproveModal == (old(showApproveModal) && r.Refused?)
    {
      r := DecideApprove(p, grantAmount);
      if r.Forward? {
        showApproveModal := false;
      }
    }

    /** A forwarded rejection closes the modal and clears the reason. */
    method RejectSubmit(p: Project) returns (r: Outcome<Decision>)
      modifies this`showRejectModal, this`rejectionReason
      ensures r == DecideReject(p, old(rejectionReason))
      ensures r.Forward? ==> !showRejectModal && rejectionReason == ""
      ensures r.Refused? ==> showRejectModal == old(showRejectModal) && rejectionReason == old(rejectionReason)
    {
      r := DecideReject(p, rejectionReason);
      if r.Forward? {
        showRejectModal := false;
        rejectionReason := "";
      }
    }

    /** A forwarded flag closes the modal and clears the reason. */
    method FlagSubmit(p: Project) returns (r: Outcome<Decision>)
      modifies this`showFlagModal, this`flagReason
      ensures r == DecideFlag(p, old(flagReason))
      ensures r.Forward? ==> !showFlagModal && flagReason == ""
      ensures r.Refused? ==> showFlagModal == old(showFlagModal) && flagReason == old(flagReason)
    {
      r := DecideFlag(p, flagReason);
      if r.Forward? {
        showFlagModal := false;
        flagReason := "";
      }
    }
  }
}
