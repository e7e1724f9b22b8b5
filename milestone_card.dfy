/** The milestone card: a display status derived from a three-valued
    `verified` flag and the proof list, the role gates of its two actions,
    and the checks its two submit handlers make. */
module MilestoneCard {
  import opened Common
  import opened Text
  import Mocks

  /** The client's view of a milestone: `verified` is absent until an
      auditor decides, and the proof list itself may be absent. */
  datatype Milestone = Milestone(
    index: int,
    description: string,
    amount: int,
    verified: Option<bool>,
    proofUrls: Option<seq<string>>,
    auditorComments: Option<string>)

  /** What a submit handler does: forward its event to the parent, or show a
      toast with this title and description and stop. */
  datatype Outcome<E> = Forward(event: E) | Refused(title: string, description: string)

  predicate HasProofs(m: Milestone) {
    m.proofUrls.Some? && |m.proofUrls.value| > 0
  }

  // ---------------------------------------------------------------------
  // Display status
  // ---------------------------------------------------------------------

  datatype DisplayStatus = VerifiedStatus | RejectedStatus | PendingVerification | AwaitingProof

  /** The first-match classification the three display helpers share. */
  function Status(m: Milestone): (r: DisplayStatus)
    ensures r == VerifiedStatus <==> m.verified == Some(true)
    ensures r == RejectedStatus <==> m.verified == Some(false)
    ensures r == PendingVerification <==> m.verified.None? && HasProofs(m)
    ensures r == AwaitingProof <==> m.verified.None? && !HasProofs(m)
  {
    match m.verified
    case Some(v) => if v then VerifiedStatus else RejectedStatus
    case None => if HasProofs(m) then PendingVerification else AwaitingProof
  }

  datatype Icon = CheckCircle | CrossCircle | Clock

  function TextOf(s: DisplayStatus): string {
    match s
    case VerifiedStatus => "Verified"
    case RejectedStatus => "Rejected"
    case PendingVerification => "Pending Verification"
    case AwaitingProof => "Awaiting Proof"
  }

  function IconOf(s: DisplayStatus): Option<Icon> {
    match s
    case VerifiedStatus => Some(CheckCircle)
    case RejectedStatus => Some(CrossCircle)
    case PendingVerification => Some(Clock)
    case AwaitingProof => None
  }

  function ColorOf(s: DisplayStatus): string {
    match s
    case VerifiedStatus => "bg-green-100 text-green-800"
    case RejectedStatus => "bg-red-100 text-red-800"
    case PendingVerification => "bg-orange-100 text-orange-800"
    case AwaitingProof => "bg-gray-100 text-gray-800"
  }

  /** `getStatusText`, as its own chain of tests. */
  function StatusText(m: Milestone): string {
    if m.verified == Some(true) then "Verified"
    else if m.verified == Some(false) then "Rejected"
    else if m.proofUrls.Some? && |m.proofUrls.value| > 0 then "Pending Verification"
    else "Awaiting Proof"
  }

  /** `getStatusIcon`, as its own chain of tests. */
  function StatusIcon(m: Milestone): Option<Icon> {
    if m.verified == Some(true) then Some(CheckCircle)
    else if m.verified == Some(false) then Some(CrossCircle)
    else if m.proofUrls.Some? && |m.proofUrls.value| > 0 then Some(Clock)
    else None
  }

  /** `getStatusColor`, as its own chain of tests. */
  function StatusColor(m: Milestone): string {
    if m.verified == Some(true) then "bg-green-100 text-green-800"
    else if m.verified == Some(false) then "bg-red-100 text-red-800"
    else if m.proofUrls.Some? && |m.proofUrls.value| > 0 then "bg-orange-100 text-orange-800"
    else "bg-gray-100 text-gray-800"
  }

  /** Text, icon and colour all follow the same precedence. */
  lemma DisplayAgrees(m: Milestone)
    ensures StatusText(m) == TextOf(Status(m))
    ensures StatusIcon(m) == IconOf(Status(m))
    ensures StatusColor(m) == ColorOf(Status(m))
  {
  }

  /** The four texts are distinct, so the text alone tells the status. */
  lemma TextDeterminesStatus(a: Milestone, b: Milestone)
    requires StatusText(a) == StatusText(b)
    ensures Status(a) == Status(b)
  {
  }

  // ---------------------------------------------------------------------
  // Action gates
  // ---------------------------------------------------------------------

  /** The file input and Upload button are shown to a producer while the
      milestone has no proofs and is not verified. */
  predicate UploadOffered(role: string, m: Milestone, readonly: bool) {
    !readonly && role == "Producer" && !HasProofs(m) && m.verified != Some(true)
  }

  /** The Verify Milestone button is shown to an auditor once proofs exist,
      and only while `verified` is absent. */
  predicate VerifyOffered(role: string, m: Milestone, readonly: bool) {
    !readonly && role == "Auditor" && HasProofs(m) && m.verified.None?
  }

  /** No role is offered both actions, and a decided milestone (verified or
      rejected) is never offered for verification again. */
  lemma GatesExclusive(role: string, m: Milestone, readonly: bool)
    ensures !(UploadOffered(role, m, readonly) && VerifyOffered(role, m, readonly))
    ensures m.verified.Some? ==> !VerifyOffered(role, m, readonly)
  {
  }

  /** The milestone as the client store holds it: `verified` always present. */
  function FromMock(m: Mocks.MockMilestone): Milestone {
    Milestone(m.index, m.description, m.amount, Some(m.verified), Some(m.proofUrls), m.auditorComments)
  }

  /** Milestones of the client store always carry a boolean `verified`, so
      the verify action is never offered for them; a rejected one without
      proofs is offered for upload again. */
  lemma MockMilestonesNeverVerifiable(role: string, m: Mocks.MockMilestone, readonly: bool)
    ensures !VerifyOffered(role, FromMock(m), readonly)
    ensures !m.verified && |m.proofUrls| == 0 ==> UploadOffered("Producer", FromMock(m), false)
  {
  }

  // ---------------------------------------------------------------------
  // Submit handlers
  // ---------------------------------------------------------------------

  datatype UploadRequest = UploadRequest(projectId: string, milestoneIndex: int, file: string)

  datatype VerifyRequest = VerifyRequest(projectId: string, milestoneIndex: int, action: string, comments: string)

  /** `handleUploadSubmit`: a file must be selected. */
  function DecideUpload(projectId: string, milestoneIndex: int, selected: Option<string>): (r: Outcome<UploadRequest>)
    ensures r.Forward? <==> selected.Some?
    ensures r.Forward? ==> r.event == UploadRequest(projectId, milestoneIndex, selected.value)
    ensures r.Refused? ==> r.title == "No File Selected"
  {
    if selected.None? then Refused("No File Selected", "Please select a file to upload")
    else Forward(UploadRequest(projectId, milestoneIndex, selected.value))
  }

  /** `handleVerifySubmit`: the comments must not be blank; they are
      forwarded untrimmed. */
  function DecideVerify(projectId: string, milestoneIndex: int, action: string, comments: string)
    : (r: Outcome<VerifyRequest>)
    ensures r.Forward? <==> Trim(comments) != ""
    ensures r.Forward? ==> r.event == VerifyRequest(projectId, milestoneIndex, action, comments)
    ensures r.Refused? ==> r.title == "Comments Required"
  {
    if Trim(comments) == "" then Refused("Comments Required", "Please provide verification comments")
    else Forward(VerifyRequest(projectId, milestoneIndex, action, comments))
  }

  /** The card's local state. */
  class CardState {
    var selectedFile: Option<string>
    var showVerifyModal: bool
    var verificationAction: string
    var comments: string

    constructor ()
      ensures selectedFile.None? && !showVerifyModal && verificationAction == "approve" && comments == ""
    {
      selectedFile := None;
      showVerifyModal := false;
      verificationAction := "approve";
      comments := "";
    }

    /** The Approve and Reject toggles of the verification dialog. */
    method ChooseAction(action: string)
      requires action == "approve" || action == "reject"
      modifies this`verificationAction
      ensures verificationAction == action
    {
      verificationAction := action;
    }

    /** An empty file list keeps the previous selection. */
    method FileChosen(file: Option<string>)
      modifies this`selectedFile
      ensures selectedFile == if file.Some? then file else old(selectedFile)
    {
      if file.Some? {
        selectedFile := file;
      }
    }

    /** Forwards the selected file and clears the selection. */
    method UploadSubmit(projectId: string, milestoneIndex: int) returns (r: Outcome<UploadRequest>)
      modifies this`selectedFile
      ensures r == DecideUpload(projectId, milestoneIndex, old(selectedFile))
      ensures selectedFile == if r.Forward? then None else old(selectedFile)
    {
      r := DecideUpload(projectId, milestoneIndex, selectedFile);
      if r.Forward? {
        selectedFile := None;
      }
    }

    /** Forwards the decision, then closes the modal and clears the comments;
        a refusal leaves both as they were. */
    method VerifySubmit(projectId: string, milestoneIndex: int) returns (r: Outcome<VerifyRequest>)
      modifies this`showVerifyModal, this`comments
      ensures r == DecideVerify(projectId, milestoneIndex, verificationAction, old(comments))
      ensures r.Forward? ==> !showVerifyModal && comments == ""
      ensures r.Refused? ==> showVerifyModal == old(showVerifyModal) && comments == old(comments)
    {
      r := DecideVerify(projectId, milestoneIndex, verificationAction, comments);
      if r.Forward? {
        showVerifyModal := false;
        comments := "";
      }
    }
  }
}
