/** The auditor dashboard page: a fixed list of milestone documents, each
    reviewable once while it is Pending. */
module AuditorPage {
  import opened Seqs

  datatype ReviewItem = ReviewItem(id: int, project: string, doc: string, status: string)

  const InitialItems := [
    ReviewItem(1, "Hydrogen Plant", "milestone1.pdf", "Pending"),
    ReviewItem(2, "Solar Electrolyzer", "report.png", "Pending")
  ]

  /** The Approve and Reject buttons are shown only for Pending entries. */
  predicate ReviewOffered(item: ReviewItem) {
    item.status == "Pending"
  }

  function IdIs(id: int): ReviewItem -> bool {
    (item: ReviewItem) => item.id == id
  }

  function WithStatus(status: string): ReviewItem -> ReviewItem {
    (item: ReviewItem) => item.(status := status)
  }

  /** `handleReview`: the entries with the id take the new status; the
      others, the order and the length are unchanged. */
  function Review(items: seq<ReviewItem>, id: int, newStatus: string): (r: seq<ReviewItem>)
    ensures |r| == |items|
    ensures forall i :: 0 <= i < |items| && items[i].id == id ==> r[i] == items[i].(status := newStatus)
    ensures forall i :: 0 <= i < |items| && items[i].id != id ==> r[i] == items[i]
  {
    MapWhere(items, IdIs(id), WithStatus(newStatus))
  }

  /** A reviewed entry is no longer offered for review, and the other
      entries keep whether they were. */
  lemma ReviewedOnce(items: seq<ReviewItem>, id: int, newStatus: string)
    requires newStatus == "Approved" || newStatus == "Rejected"
    ensures forall i :: 0 <= i < |items| && items[i].id == id ==> !ReviewOffered(Review(items, id, newStatus)[i])
    ensures forall i :: 0 <= i < |items| && items[i].id != id ==>
              ReviewOffered(Review(items, id, newStatus)[i]) == ReviewOffered(items[i])
  {
  }

  class Dashboard {
    var milestones: seq<ReviewItem>

    constructor ()
      ensures milestones == InitialItems
    {
      milestones := InitialItems;
    }

    method HandleReview(id: int, newStatus: string)
      modifies this
      ensures milestones == Review(old(milestones), id, newStatus)
    {
      milestones := Review(milestones, id, newStatus);
    }

    /** The Approve button of entry `id`. */
    method Approve(id: int)
      modifies this
      ensures milestones == Review(old(milestones), id, "Approved")
    {
      HandleReview(id, "Approved");
    }

    /** The Reject button of entry `id`. */
    method Reject(id: int)
      modifies this
      ensures milestones == Review(old(milestones), id, "Rejected")
    {
      HandleReview(id, "Rejected");
    }
  }
}
