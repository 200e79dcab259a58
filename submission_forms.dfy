/**
 * The vehicle-submission table: submissions shown four per page, a modal
 * that shows one submission's details, and delete after confirmation.
 */
module SubmissionForms {
  import opened Wrappers
  import opened Pagination
  import RecordList
  import ScrollLock

  datatype Submission = Submission(
    id: int,
    createdDate: string,
    dealerId: string,
    modelsSeries: string,
    mileage: string,
    auctions: string,
    color: string,
    floorPrice: string)

  function IdOf(s: Submission): int { s.id }

  /** The five submissions the table starts with. */
  function InitialSubmissions(): (r: seq<Submission>)
    ensures |r| == 5
  {
    [ Submission(1, "28/12/2022", "DE3456", "Toyota Corolla 2023", "12,000 km", "Live Auction A",
                 "Silver", "$22,000"),
      Submission(2, "02/04/2022", "DE3258", "Honda Civic 2022", "15,500 km", "Bidding B",
                 "Black", "$24,500"),
      Submission(3, "12/01/2023", "DE9911", "Mazda CX-5 2023", "8,000 km", "Premium Auction",
                 "Soul Red", "$31,000"),
      Submission(4, "23/06/2023", "DE7788", "Nissan Altima 2021", "45,000 km", "Global Auction C",
                 "White", "$18,000"),
      Submission(5, "15/07/2023", "DE5544", "BMW 3 Series 2024", "2,000 km", "Elite Sale",
                 "Blue", "$42,000") ]
  }

  /**
   * The footer always reads "Showing a to b of n entries": `a` is 0 for an
   * empty list and the first shown row's 1-based position otherwise, `b`
   * is the last shown row's position (0 for an empty list).
   */
  function SubmissionsFooter(page: int, totalItems: nat): (r: Footer)
    ensures r.Showing? && r.total == totalItems
    ensures r.first == 0 <==> totalItems == 0
    ensures r.last == 0 <==> totalItems == 0
    ensures totalItems > 0 ==> r.first - 1 == StartIndex(page, totalItems)
    ensures totalItems > 0 ==> 1 <= r.first <= r.last <= totalItems && r.last - r.first < PageSize
    ensures totalItems > 0 && r.last < totalItems ==> r.last - r.first + 1 == PageSize
  {
    Showing(if totalItems == 0 then 0 else StartIndex(page, totalItems) + 1,
            EndIndex(page, totalItems), totalItems)
  }

  /** An empty table reads "Showing 0 to 0 of 0 entries". */
  lemma EmptyFooter(page: int)
    ensures Render(SubmissionsFooter(page, 0)) == "Showing 0 to 0 of 0 entries"
  {
  }

  class SubmissionFormsTable {
    var submissions: seq<Submission>
    var open: bool
    var selectedSubmission: Option<Submission>
    /** The stored page; the table shows `ClampPage(page, |submissions|)`. */
    var page: int
    var scroll: ScrollLock.State

    /**
     * The detail modal is shown when `open` is set and a submission is
     * selected (`open && selectedSubmission`).
     */
    predicate ModalShown()
      reads this
    {
      open && selectedSubmission.Some?
    }

    /** Open exactly when a listed submission is selected. */
    ghost predicate Valid()
      reads this
    {
      (open <==> selectedSubmission.Some?) &&
      (selectedSubmission.Some? ==> selectedSubmission.value in submissions) &&
      ScrollLock.Consistent(scroll) && (scroll.saved.Some? <==> open)
    }

    /** Mounting: the initial submissions on page 1, the modal closed. */
    constructor (bodyOverflow: string)
      ensures Valid()
      ensures submissions == InitialSubmissions() && page == 1
      ensures !open && selectedSubmission.None? && !ModalShown()
      ensures scroll == ScrollLock.State(bodyOverflow, None)
    {
      submissions := InitialSubmissions();
      open := false;
      selectedSubmission := None;
      page := 1;
      scroll := ScrollLock.State(bodyOverflow, None);
    }

    /** In a consistent state the modal is shown exactly when `open` is set. */
    lemma ShownIffOpen()
      requires Valid()
      ensures ModalShown() <==> open
    {
    }

    method GoToPage(p: int)
      modifies this`page
      ensures page == ClampPage(p, |submissions|)
      ensures 1 <= page <= TotalPages(|submissions|)
    {
      var next := Min(Max(p, 1), TotalPages(|submissions|));
      page := next;
    }

    method HandleView(submission: Submission)
      requires Valid() && submission in submissions
      modifies this
      ensures Valid()
      ensures open && selectedSubmission == Some(submission) && ModalShown()
      ensures submissions == old(submissions) && page == old(page)
      ensures scroll == ScrollLock.Commit(true, old(scroll))
    {
      selectedSubmission := Some(submission);
      open := true;
      scroll := ScrollLock.Commit(open, scroll);
    }

    method CloseModal()
      requires Valid()
      modifies this
      ensures Valid()
      ensures !open && selectedSubmission.None? && !ModalShown()
      ensures submissions == old(submissions) && page == old(page)
      ensures scroll == ScrollLock.Commit(false, old(scroll))
      ensures old(open) ==> scroll.overflow == old(scroll.saved.value)
    {
      open := false;
      selectedSubmission := None;
      scroll := ScrollLock.Commit(open, scroll);
    }

    /**
     * Delete after confirmation: declined, nothing changes; confirmed, the
     * submissions with that id are dropped and the modal closes exactly
     * when it showed one of them.
     */
    method HandleDelete(submission: Submission, confirmed: bool)
      requires Valid()
      modifies this
      ensures Valid()
      ensures !confirmed ==> submissions == old(submissions) && open == old(open) &&
                             selectedSubmission == old(selectedSubmission) && scroll == old(scroll)
      ensures confirmed ==> submissions == RecordList.RemoveId(old(submissions), IdOf, submission.id)
      ensures confirmed && old(selectedSubmission).Some? &&
              old(selectedSubmission).value.id == submission.id ==>
                !open && selectedSubmission.None? && scroll == ScrollLock.Commit(false, old(scroll))
      ensures !(old(selectedSubmission).Some? && old(selectedSubmission).value.id == submission.id) ==>
                open == old(open) && selectedSubmission == old(selectedSubmission) && scroll == old(scroll)
      ensures page == old(page)
    {
      if !confirmed {
        return;
      }
      submissions := RecordList.RemoveId(submissions, IdOf, submission.id);
      if selectedSubmission.Some? && selectedSubmission.value.id == submission.id {
        open := false;
        selectedSubmission := None;
        scroll := ScrollLock.Commit(open, scroll);
      }
    }
  }
}
