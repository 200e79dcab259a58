/**
 * The dealers table: a list of dealers shown four per page, a modal that
 * views, adds or edits one dealer, and delete after confirmation.
 */
module Dealers {
  import opened Wrappers
  import opened Pagination
  import RecordList
  import ScrollLock

  datatype Dealer = Dealer(
    id: int,
    createdDate: string,
    dealerId: string,
    dealerName: string,
    email: string,
    contact: string,
    address: string,
    vin: string)

  function IdOf(d: Dealer): int { d.id }

  datatype ModalType = View | Add | Edit

  /** The six dealers the table starts with. */
  function InitialDealers(): (r: seq<Dealer>)
    ensures |r| == 6
  {
    [ Dealer(1, "28/12/2022", "DE3456", "Esther Howard", "howard@gmail.com", "+880 1711-000000",
             "Dhaka, Bangladesh", "1HGCM82633A004352"),
      Dealer(2, "02/04/2022", "DE3258", "Kristin Watson", "watson@gmail.com", "+880 1811-000000",
             "Chattogram, Bangladesh", "2HGCM82633A004999"),
      Dealer(3, "28/12/2022", "DE3456", "Esther Howard", "howard@gmail.com", "+880 1911-000000",
             "Sylhet, Bangladesh", "3HGCM82633A004888"),
      Dealer(4, "02/04/2022", "DE3258", "Kristin Watson", "watson@gmail.com", "+880 1611-000000",
             "Rajshahi, Bangladesh", "4HGCM82633A004777"),
      Dealer(5, "12/01/2023", "DE9911", "Robert Fox", "robert@gmail.com", "+880 1511-000000",
             "Khulna, Bangladesh", "5HGCM82633A004111"),
      Dealer(6, "23/06/2023", "DE7788", "Jenny Wilson", "jenny@gmail.com", "+880 1411-000000",
             "Barishal, Bangladesh", "6HGCM82633A004222") ]
  }

  /**
   * The footer: "Showing 0 entries" for an empty list, otherwise the
   * 1-based positions of the first and last rows shown and the total.
   */
  function DealersFooter(page: int, totalItems: nat): (r: Footer)
    ensures r.NoEntries? <==> totalItems == 0
    ensures r.Showing? ==> 1 <= r.first <= r.last <= r.total == totalItems
    ensures r.Showing? ==> r.first - 1 == StartIndex(page, totalItems)
    ensures r.Showing? ==> r.last - r.first < PageSize
    ensures r.Showing? && r.last < r.total ==> r.last - r.first + 1 == PageSize
  {
    if totalItems == 0 then NoEntries
    else Showing(StartIndex(page, totalItems) + 1, EndIndex(page, totalItems), totalItems)
  }

  /** With six dealers, page 1 reads "Showing 1 to 4 of 6 entries". */
  lemma SixDealersFirstFooter()
    ensures Render(DealersFooter(1, 6)) == "Showing 1 to 4 of 6 entries"
  {
    assert DealersFooter(1, 6) == Showing(1, 4, 6);
    assert NatToString(1) == "1" && NatToString(4) == "4" && NatToString(6) == "6";
  }

  /** With six dealers, page 2 reads "Showing 5 to 6 of 6 entries". */
  lemma SixDealersSecondFooter()
    ensures Render(DealersFooter(2, 6)) == "Showing 5 to 6 of 6 entries"
  {
    assert DealersFooter(2, 6) == Showing(5, 6, 6);
    assert NatToString(5) == "5" && NatToString(6) == "6";
  }

  /**
   * With the six initial dealers, page 2 shows the last two, and asking
   * for page 3 stores page 2.
   */
  lemma SixDealersPages()
    ensures PageItems(InitialDealers(), 1) == InitialDealers()[..4]
    ensures PageItems(InitialDealers(), 2) == InitialDealers()[4..]
    ensures ClampPage(3, |InitialDealers()|) == 2
  {
  }

  class DealersTable {
    var dealers: seq<Dealer>
    var open: bool
    var modalType: Option<ModalType>
    var selectedDealer: Option<Dealer>
    /** The stored page; the table shows `ClampPage(page, |dealers|)`. */
    var page: int
    var scroll: ScrollLock.State

    /**
     * The modal is closed with nothing selected, or open in exactly one
     * mode: adding with no dealer, or viewing or editing a listed dealer.
     */
    ghost predicate Valid()
      reads this
    {
      (!open ==> modalType.None? && selectedDealer.None?) &&
      (open ==> modalType.Some?) &&
      (modalType == Some(Add) ==> selectedDealer.None?) &&
      (modalType == Some(View) || modalType == Some(Edit) ==> selectedDealer.Some?) &&
      (selectedDealer.Some? ==> selectedDealer.value in dealers) &&
      ScrollLock.Consistent(scroll) && (scroll.saved.Some? <==> open)
    }

    /** Mounting: the initial dealers on page 1, the modal closed. */
    constructor (bodyOverflow: string)
      ensures Valid()
      ensures dealers == InitialDealers() && page == 1
      ensures !open && modalType.None? && selectedDealer.None?
      ensures scroll == ScrollLock.State(bodyOverflow, None)
    {
      dealers := InitialDealers();
      open := false;
      modalType := None;
      selectedDealer := None;
      page := 1;
      scroll := ScrollLock.State(bodyOverflow, None);
    }

    method GoToPage(p: int)
      modifies this`page
      ensures page == ClampPage(p, |dealers|)
      ensures 1 <= page <= TotalPages(|dealers|)
    {
      var next := Min(Max(p, 1), TotalPages(|dealers|));
      page := next;
    }

    method HandleView(dealer: Dealer)
      requires Valid() && dealer in dealers
      modifies this
      ensures Valid()
      ensures open && modalType == Some(View) && selectedDealer == Some(dealer)
      ensures dealers == old(dealers) && page == old(page)
      ensures scroll == ScrollLock.Commit(true, old(scroll))
    {
      selectedDealer := Some(dealer);
      modalType := Some(View);
      open := true;
      scroll := ScrollLock.Commit(open, scroll);
    }

    method HandleAdd()
      requires Valid()
      modifies this
      ensures Valid()
      ensures open && modalType == Some(Add) && selectedDealer.None?
      ensures dealers == old(dealers) && page == old(page)
      ensures scroll == ScrollLock.Commit(true, old(scroll))
    {
      selectedDealer := None;
      modalType := Some(Add);
      open := true;
      scroll := ScrollLock.Commit(open, scroll);
    }

    method HandleEdit(dealer: Dealer)
      requires Valid() && dealer in dealers
      modifies this
      ensures Valid()
      ensures open && modalType == Some(Edit) && selectedDealer == Some(dealer)
      ensures dealers == old(dealers) && page == old(page)
      ensures scroll == ScrollLock.Commit(true, old(scroll))
    {
      selectedDealer := Some(dealer);
      modalType := Some(Edit);
      open := true;
      scroll := ScrollLock.Commit(open, scroll);
    }

    method CloseModal()
      requires Valid()
      modifies this
      ensures Valid()
      ensures !open && modalType.None? && selectedDealer.None?
      ensures dealers == old(dealers) && page == old(page)
      ensures scroll == ScrollLock.Commit(false, old(scroll))
      ensures old(open) ==> scroll.overflow == old(scroll.saved.value)
    {
      open := false;
      selectedDealer := None;
      modalType := None;
      scroll := ScrollLock.Commit(open, scroll);
    }

    /** The add/edit form's submit: the form data is only logged; the modal closes. */
    method HandleSubmit()
      requires Valid()
      modifies this
      ensures Valid()
      ensures !open && modalType.None? && selectedDealer.None?
      ensures dealers == old(dealers) && page == old(page)
      ensures scroll == ScrollLock.Commit(false, old(scroll))
    {
      CloseModal();
    }

    /**
     * Delete after confirmation: declined, nothing changes; confirmed, the
     * dealers with that id are dropped and the modal closes exactly when it
     * showed one of them. The stored page is kept; the shown page re-clamps.
     */
    method HandleDelete(dealer: Dealer, confirmed: bool)
      requires Valid()
      modifies this
      ensures Valid()
      ensures !confirmed ==> dealers == old(dealers) && open == old(open) &&
                             modalType == old(modalType) && selectedDealer == old(selectedDealer) &&
                             scroll == old(scroll)
      ensures confirmed ==> dealers == RecordList.RemoveId(old(dealers), IdOf, dealer.id)
      ensures confirmed && old(selectedDealer).Some? && old(selectedDealer).value.id == dealer.id ==>
                !open && modalType.None? && selectedDealer.None? &&
                scroll == ScrollLock.Commit(false, old(scroll))
      ensures !(old(selectedDealer).Some? && old(selectedDealer).value.id == dealer.id) ==>
                open == old(open) && modalType == old(modalType) &&
                selectedDealer == old(selectedDealer) && scroll == old(scroll)
      ensures page == old(page)
    {
      if !confirmed {
        return;
      }
      dealers := RecordList.RemoveId(dealers, IdOf, dealer.id);
      if selectedDealer.Some? && selectedDealer.value.id == dealer.id {
        open := false;
        selectedDealer := None;
        modalType := None;
        scroll := ScrollLock.Commit(open, scroll);
      }
    }
  }

  /**
   * Opening any mode and closing again puts the body's overflow back to
   * what it was before the modal opened, whatever mode was shown between.
   */
  method OpenEditThenClose(t: DealersTable, d: Dealer)
    requires t.Valid() && !t.open && d in t.dealers
    modifies t
    ensures t.Valid() && !t.open
    ensures t.scroll == old(t.scroll)
  {
    t.HandleView(d);
    t.HandleAdd();
    t.HandleEdit(d);
    t.CloseModal();
  }
}
