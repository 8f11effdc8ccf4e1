/** The complaints (feedback) table: a supplier with a role id sees the
    complaints about it, every other signed-in role sees all of them, five per
    page. */
module ComplaintsTable {
  import opened Common
  import opened Pagination
  import LocalStorage

  const ItemsPerPage: nat := 5
  const SignInToast: string := "Please log in to submit a complaint"

  datatype Complaint = Complaint(id: Option<int>, supplierId: string, comment: string)

  datatype ComplaintQuery = AllComplaints | BySupplier(supplierId: string)

  /** The query for a session user; None when it has no role. */
  function QueryFor(user: LocalStorage.SessionUser): (q: Option<ComplaintQuery>)
    ensures q.None? <==> user.role == ""
    ensures user.role == "supplier" && user.roleId != "" ==> q == Some(BySupplier(user.roleId))
    ensures user.role != "" && (user.role != "supplier" || user.roleId == "") ==> q == Some(AllComplaints)
  {
    if user.role == "" then None
    else if user.role == "supplier" && user.roleId != "" then Some(BySupplier(user.roleId))
    else Some(AllComplaints)
  }

  /** A supplier without a role id falls through to the query for all
      complaints, like management. */
  lemma SupplierWithoutRoleIdSeesAll(user: LocalStorage.SessionUser)
    requires user.role == "supplier" && user.roleId == ""
    ensures QueryFor(user) == QueryFor(user.(role := "management"))
  {
  }

  /** `feedbacks.find(fb => fb.id === id)`. */
  function FindComplaint(cs: seq<Complaint>, id: int): (r: Option<Complaint>)
    ensures r.Some? ==> r.value in cs && r.value.id == Some(id)
    ensures r.None? <==> forall i :: 0 <= i < |cs| ==> cs[i].id != Some(id)
  {
    Find(cs, (c: Complaint) => c.id == Some(id))
  }

  class FeedbacksTable {
    var feedbacks: seq<Complaint>
    var loading: bool
    var error: Option<string>
    var currentPage: int
    var popupOpen: bool
    var selectedFeedback: Option<Complaint>
    var toasts: seq<string>

    constructor ()
      ensures feedbacks == [] && loading && error.None? && currentPage == 1
      ensures !popupOpen && selectedFeedback.None? && toasts == []
    {
      feedbacks := [];
      loading := true;
      error := None;
      currentPage := 1;
      popupOpen := false;
      selectedFeedback := None;
      toasts := [];
    }

    /** The fetch on mount. The complaint API wrappers swallow their own
        failures and answer `undefined`, which shows as an empty table. */
    method Mount(user: LocalStorage.SessionUser, fetched: Option<seq<Complaint>>)
      returns (query: Option<ComplaintQuery>)
      modifies this
      ensures query == QueryFor(user) && !loading
      ensures query.Some? ==> feedbacks == Coalesce(fetched, []) && error.None? && toasts == old(toasts)
      ensures query.None? ==> feedbacks == old(feedbacks) && error == old(error) && toasts == old(toasts) + [SignInToast]
      ensures currentPage == old(currentPage) && popupOpen == old(popupOpen) && selectedFeedback == old(selectedFeedback)
    {
      loading := true;
      query := QueryFor(user);
      if query.Some? {
        feedbacks := Coalesce(fetched, []);
        error := None;
      } else {
        toasts := toasts + [SignInToast];
      }
      loading := false;
    }

    function CurrentItems(): (r: seq<Complaint>)
      reads this
      ensures |r| <= ItemsPerPage
      ensures currentPage >= 1 ==> (r == [] <==> currentPage > TotalPages(|feedbacks|, ItemsPerPage))
      ensures forall k :: 0 <= k < |r| ==> r[k] in feedbacks
    {
      PageFacts(feedbacks, currentPage, ItemsPerPage);
      PageItems(feedbacks, currentPage, ItemsPerPage)
    }

    method PageChange(page: int)
      modifies this
      ensures currentPage == page
      ensures feedbacks == old(feedbacks) && loading == old(loading) && error == old(error)
      ensures popupOpen == old(popupOpen) && selectedFeedback == old(selectedFeedback) && toasts == old(toasts)
    {
      currentPage := page;
    }

    method HandleView(id: int)
      modifies this
      ensures popupOpen && selectedFeedback == FindComplaint(feedbacks, id)
      ensures feedbacks == old(feedbacks) && loading == old(loading) && error == old(error)
      ensures currentPage == old(currentPage) && toasts == old(toasts)
    {
      selectedFeedback := FindComplaint(feedbacks, id);
      popupOpen := true;
    }
  

    /** The popup's `onClose`: only the popup closes; the selection is kept. */
    method ClosePopup()
      modifies this
      ensures !popupOpen && selectedFeedback == old(selectedFeedback)
      ensures feedbacks == old(feedbacks) && loading == old(loading) && error == old(error)
      ensures currentPage == old(currentPage) && toasts == old(toasts)
    {
      popupOpen := false;
    }
  }
}
