/** The project form: a name, a description and a list of milestone drafts
    that is edited by adding, removing and updating entries, validated in a
    fixed order before it is handed to the caller, and then reset. */
module ProjectFormModal {
  import opened Common
  import opened Text
  import opened Seqs
  import opened MilestoneCard

  datatype FormMilestone = FormMilestone(description: string, amount: int)

  const BlankMilestone := FormMilestone("", 0)

  datatype FormData = FormData(name: string, description: string, milestones: seq<FormMilestone>)

  // ---------------------------------------------------------------------
  // Validation
  // ---------------------------------------------------------------------

  predicate MilestoneValid(m: FormMilestone) {
    !IsBlank(m.description) && m.amount > 0
  }

  predicate MilestoneInvalid(m: FormMilestone) {
    !MilestoneValid(m)
  }

  /** The toast for the milestone at position `i` that fails a check: the
      description is checked before the amount, and milestones are numbered
      from 1. */
  function MilestoneProblem(m: FormMilestone, i: nat): (r: Outcome<FormData>)
    requires MilestoneInvalid(m)
    ensures r.Refused?
    ensures r.title == (if IsBlank(m.description) then "Milestone Description Required" else "Invalid Milestone Amount")
  {
    if Trim(m.description) == "" then
      Refused("Milestone Description Required", "Please enter a description for milestone " + NatToString(i + 1))
    else
      Refused("Invalid Milestone Amount", "Milestone " + NatToString(i + 1) + " amount must be greater than 0")
  }

  /** The verdict of the milestone loop: the problem of the first invalid
      milestone, if any. */
  function MilestonesVerdict(ms: seq<FormMilestone>): (r: Option<Outcome<FormData>>)
    ensures r.None? <==> forall i :: 0 <= i < |ms| ==> MilestoneValid(ms[i])
    ensures r.Some? ==> r.value.Refused? && r.value.title != "Milestones Required"
    ensures r.Some? ==> exists i :: (0 <= i < |ms| && MilestoneInvalid(ms[i])
              && (forall j :: 0 <= j < i ==> MilestoneValid(ms[j]))
              && r.value == MilestoneProblem(ms[i], i))
  {
    var i := FirstIndex(ms, MilestoneInvalid);
    if i == -1 then
      assert forall k :: 0 <= k < |ms| ==> ms[k] in ms;
      None
    else Some(MilestoneProblem(ms[i], i))
  }

  /** `handleSubmit`'s checks, in order: name, description, a non-empty
      list, then each milestone; on success the trimmed name and
      description and the milestones as they are. */
  function Validate(name: string, description: string, ms: seq<FormMilestone>): (r: Outcome<FormData>)
    ensures r.Forward? <==> !IsBlank(name) && !IsBlank(description) && |ms| > 0
                            && forall i :: 0 <= i < |ms| ==> MilestoneValid(ms[i])
    ensures r.Forward? ==> r.event == FormData(Trim(name), Trim(description), ms)
    ensures IsBlank(name) ==> r == Refused("Project Name Required", "Please enter a project name")
    ensures !IsBlank(name) && IsBlank(description) ==> r == Refused("Description Required", "Please enter a project description")
    ensures |ms| >= 1 && r.Refused? ==> r.title != "Milestones Required"
  {
    if Trim(name) == "" then Refused("Project Name Required", "Please enter a project name")
    else if Trim(description) == "" then Refused("Description Required", "Please enter a project description")
    else if |ms| == 0 then Refused("Milestones Required", "Please add at least one milestone")
    else
      match MilestonesVerdict(ms)
      case Some(problem) => problem
      case None => Forward(FormData(Trim(name), Trim(description), ms))
  }

  /** The loop of `handleSubmit` over the milestones, stopping at the first
      failure. */
  method CheckMilestones(ms: seq<FormMilestone>) returns (r: Option<Outcome<FormData>>)
    ensures r == MilestonesVerdict(ms)
  {
    var i := 0;
    while i < |ms|
      invariant 0 <= i <= |ms|
      invariant forall j :: 0 <= j < i ==> MilestoneValid(ms[j])
    {
      var m := ms[i];
      if Trim(m.description) == "" {
        r := Some(Refused("Milestone Description Required", "Please enter a description for milestone " + NatToString(i + 1)));
        VerdictAt(ms, i);
        return;
      }
      if m.amount <= 0 {
        r := Some(Refused("Invalid Milestone Amount", "Milestone " + NatToString(i + 1) + " amount must be greater than 0"));
        VerdictAt(ms, i);
        return;
      }
      i := i + 1;
    }
    r := None;
  }

  /** `handleSubmit`'s checks with early returns. */
  method CheckForm(name: string, description: string, ms: seq<FormMilestone>) returns (r: Outcome<FormData>)
    ensures r == Validate(name, description, ms)
  {
    if Trim(name) == "" {
      return Refused("Project Name Required", "Please enter a project name");
    }
    if Trim(description) == "" {
      return Refused("Description Required", "Please enter a project description");
    }
    if |ms| == 0 {
      return Refused("Milestones Required", "Please add at least one milestone");
    }
    var problem := CheckMilestones(ms);
    if problem.Some? {
      return problem.value;
    }
    r := Forward(FormData(Trim(name), Trim(description), ms));
  }

  /** The verdict is the problem of the milestone the loop stops at. */
  lemma VerdictAt(ms: seq<FormMilestone>, i: int)
    requires 0 <= i < |ms| && MilestoneInvalid(ms[i])
    requires forall j :: 0 <= j < i ==> MilestoneValid(ms[j])
    ensures MilestonesVerdict(ms) == Some(MilestoneProblem(ms[i], i))
  {
    FirstInvalidAt(ms, i);
  }

  lemma FirstInvalidAt(ms: seq<FormMilestone>, i: int)
    requires 0 <= i < |ms| && MilestoneInvalid(ms[i])
    requires forall j :: 0 <= j < i ==> MilestoneValid(ms[j])
    ensures FirstIndex(ms, MilestoneInvalid) == i
  {
    var k := FirstIndex(ms, MilestoneInvalid);
    assert ms[i] in ms;
  }

  // ---------------------------------------------------------------------
  // List editing and the total
  // ---------------------------------------------------------------------

  function Amount(m: FormMilestone): int {
    m.amount
  }

  /** `getTotalAmount`. */
  function TotalAmount(ms: seq<FormMilestone>): int {
    SumOf(ms, Amount)
  }

  /** `addMilestone`: one blank entry at the end. */
  function AddMilestone(ms: seq<FormMilestone>): (r: seq<FormMilestone>)
    ensures |r| == |ms| + 1 && r[..|ms|] == ms && r[|ms|] == BlankMilestone
    ensures TotalAmount(r) == TotalAmount(ms)
  {
    SumOfConcat(ms, [BlankMilestone], Amount);
    ms + [BlankMilestone]
  }

  /** `removeMilestone`: the last remaining entry is kept; otherwise the
      entry at `index`, if there is one, is dropped and the order kept. */
  function RemoveMilestone(ms: seq<FormMilestone>, index: int): (r: seq<FormMilestone>)
    ensures |ms| >= 1 ==> |r| >= 1
    ensures |ms| > 1 && 0 <= index < |ms| ==> r == ms[..index] + ms[index + 1..]
    ensures !(|ms| > 1 && 0 <= index < |ms|) ==> r == ms
    ensures |ms| > 1 && 0 <= index < |ms| ==> TotalAmount(r) == TotalAmount(ms) - ms[index].amount
  {
    if |ms| > 1 then
      if 0 <= index < |ms| then
        assert ms == ms[..index] + [ms[index]] + ms[index + 1..];
        SumOfConcat(ms[..index] + [ms[index]], ms[index + 1..], Amount);
        SumOfConcat(ms[..index], [ms[index]], Amount);
        SumOfConcat(ms[..index], ms[index + 1..], Amount);
        RemoveIndex(ms, index)
      else ms
    else ms
  }

  /** `updateMilestone(index, 'description', value)`: only that entry's
      description changes. */
  function UpdateDescription(ms: seq<FormMilestone>, index: int, value: string): (r: seq<FormMilestone>)
    ensures |r| == |ms|
    ensures forall j :: 0 <= j < |ms| && j != index ==> r[j] == ms[j]
    ensures 0 <= index < |ms| ==> r[index] == ms[index].(description := value)
    ensures TotalAmount(r) == TotalAmount(ms)
  {
    if 0 <= index < |ms| then
      SumOfUpdate(ms, index, ms[index].(description := value), Amount);
      ms[index := ms[index].(description := value)]
    else ms
  }

  /** `updateMilestone(index, 'amount', value)`: only that entry's amount
      changes, and the total moves by the difference. */
  function UpdateAmount(ms: seq<FormMilestone>, index: int, value: int): (r: seq<FormMilestone>)
    ensures |r| == |ms|
    ensures forall j :: 0 <= j < |ms| && j != index ==> r[j] == ms[j]
    ensures 0 <= index < |ms| ==> r[index] == ms[index].(amount := value)
    ensures 0 <= index < |ms| ==> TotalAmount(r) == TotalAmount(ms) - ms[index].amount + value
  {
    if 0 <= index < |ms| then
      SumOfUpdate(ms, index, ms[index].(amount := value), Amount);
      ms[index := ms[index].(amount := value)]
    else ms
  }

  /** Every amount of an accepted form is positive, so its total is too. */
  lemma {:induction false} AcceptedTotalPositive(ms: seq<FormMilestone>)
    requires |ms| > 0 && forall i :: 0 <= i < |ms| ==> MilestoneValid(ms[i])
    ensures TotalAmount(ms) > 0
  {
    assert MilestoneValid(ms[0]);
    assert TotalAmount(ms) == ms[0].amount + TotalAmount(ms[1..]);
    if |ms| == 1 {
      assert ms[1..] == [];
    } else {
      assert forall i :: 0 <= i < |ms[1..]| ==> MilestoneValid(ms[1..][i]) by {
        forall i | 0 <= i < |ms[1..]| ensures MilestoneValid(ms[1..][i]) {
          assert ms[1..][i] == ms[i + 1];
        }
      }
      AcceptedTotalPositive(ms[1..]);
    }
  }

  // ---------------------------------------------------------------------
  // The form's state
  // ---------------------------------------------------------------------

  class Form {
    var name: string
    var description: string
    var milestones: seq<FormMilestone>

    /** The list always holds at least one entry. */
    ghost predicate Valid()
      reads this
    {
      |milestones| >= 1
    }

    constructor ()
      ensures name == "" && description == "" && milestones == [BlankMilestone]
      ensures Valid()
    {
      name := "";
      description := "";
      milestones := [BlankMilestone];
    }

    /** Hands the validated data on and resets the form; a refusal changes
        nothing. */
    method Submit() returns (r: Outcome<FormData>)
      requires Valid()
      modifies this`name, this`description, this`milestones
      ensures Valid()
      ensures r == Validate(old(name), old(description), old(milestones))
      ensures r.Forward? ==> name == "" && description == "" && milestones == [BlankMilestone]
      ensures r.Refused? ==> name == old(name) && description == old(description) && milestones == old(milestones)
    {
      var n, d, ms := name, description, milestones;
      r := CheckForm(n, d, ms);
      if r.Forward? {
        Reset();
      }
    }

    /** Empties the form after a submission. */
    method Reset()
      modifies this`name, this`description, this`milestones
      ensures name == "" && description == "" && milestones == [BlankMilestone]
    {
      name := "";
      description := "";
      milestones := [BlankMilestone];
    }

    method Add()
      requires Valid()
      modifies this`milestones
      ensures Valid() && milestones == AddMilestone(old(milestones))
    {
      milestones := AddMilestone(milestones);
    }

    method Remove(index: int)
      requires Valid()
      modifies this`milestones
      ensures Valid() && milestones == RemoveMilestone(old(milestones), index)
    {
      milestones := RemoveMilestone(milestones, index);
    }

    method SetDescription(index: int, value: string)
      requires Valid()
      modifies this`milestones
      ensures Valid() && milestones == UpdateDescription(old(milestones), index, value)
    {
      milestones := UpdateDescription(milestones, index, value);
    }

    method SetAmount(index: int, value: int)
      requires Valid()
      modifies this`milestones
      ensures Valid() && milestones == UpdateAmount(old(milestones), index, value)
    {
      milestones := UpdateAmount(milestones, index, value);
    }
  }
}
