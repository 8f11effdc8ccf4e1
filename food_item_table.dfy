/** The food-items table: which items a role is shown, three per page, which
    row actions each role gets, and the delete confirmation, which reports a
    deletion without requesting one. */
module FoodItemTable {
  import opened Common
  import opened Pagination
  import LocalStorage

  const ItemsPerPage: nat := 3
  const FetchFailedMessage: string := "Failed to fetch food items. Please try again."
  const DeletedToast: string := "Food item deleted successfully!"

  datatype FoodItem = FoodItem(id: Option<int>, name: string)

  datatype FoodQuery = AllFoodItems | BySupplier(supplierId: string)

  /** Management lists every item; a supplier with an id lists its own, by
      its role id; anyone else is refused before any request. */
  function QueryFor(user: LocalStorage.SessionUser): (q: Option<FoodQuery>)
    ensures user.role == "management" ==> q == Some(AllFoodItems)
    ensures user.role == "supplier" && user.id != "" ==> q == Some(BySupplier(user.roleId))
    ensures q.None? <==> user.role != "management" && (user.role != "supplier" || user.id == "")
  {
    if user.role == "management" then Some(AllFoodItems)
    else if user.role == "supplier" && user.id != "" then Some(BySupplier(user.roleId))
    else None
  }

  datatype RowAction = ViewAction | EditAction | DeleteAction

  /** The buttons in a row's actions cell; the column itself is hidden from
      management. */
  function RowActions(currentUser: Option<LocalStorage.SessionUser>, item: FoodItem): set<RowAction> {
    var isManagement := currentUser.Some? && currentUser.value.role == "management";
    var isSupplier := currentUser.Some? && currentUser.value.role == "supplier";
    if isManagement then {}
    else ({ViewAction}
          + (if isSupplier && item.id.Some? then {EditAction} else {})
          + (if isSupplier then {DeleteAction} else {}))
  }

  /** Management gets no actions, a supplier gets all three (edit only on a
      row with an id), every other viewer, a signed-out one included, may only
      view. */
  lemma RowActionsByRole(currentUser: Option<LocalStorage.SessionUser>, item: FoodItem)
    ensures currentUser.Some? && currentUser.value.role == "management" ==> RowActions(currentUser, item) == {}
    ensures currentUser.Some? && currentUser.value.role == "supplier" ==>
      RowActions(currentUser, item) == (if item.id.Some? then {ViewAction, EditAction, DeleteAction} else {ViewAction, DeleteAction})
    ensures (currentUser.None? || currentUser.value.role !in ["management", "supplier"]) ==>
      RowActions(currentUser, item) == {ViewAction}
    ensures EditAction in RowActions(currentUser, item) ==> DeleteAction in RowActions(currentUser, item)
  {
  }

  datatype PopupMode = Add | Edit | View

  /** `foodItems.find(item => item.id === id)`. */
  function FindItem(items: seq<FoodItem>, id: int): (r: Option<FoodItem>)
    ensures r.Some? ==> r.value in items && r.value.id == Some(id)
    ensures r.None? <==> forall i :: 0 <= i < |items| ==> items[i].id != Some(id)
  {
    Find(items, (f: FoodItem) => f.id == Some(id))
  }

  class FoodItemsTable {
    var foodItems: seq<FoodItem>
    var loading: bool
    var error: Option<string>
    var currentPage: int
    var popupOpen: bool
    var popupMode: PopupMode
    var selectedFoodItem: Option<FoodItem>
    var deleteOpen: bool
    var currentUser: Option<LocalStorage.SessionUser>
    var toasts: seq<string>

    constructor ()
      ensures foodItems == [] && loading && error.None? && currentPage == 1
      ensures !popupOpen && popupMode == Add && selectedFoodItem.None? && !deleteOpen
      ensures currentUser.None? && toasts == []
    {
      foodItems := [];
      loading := true;
      error := None;
      currentPage := 1;
      popupOpen := false;
      popupMode := Add;
      selectedFoodItem := None;
      deleteOpen := false;
      currentUser := None;
      toasts := [];
    }

    /** One fetch for `user`; `result` is what the query it makes returns. */
    method FetchFoodItems(user: LocalStorage.SessionUser, result: Fetch<seq<FoodItem>>)
      returns (query: Option<FoodQuery>)
      modifies this
      ensures query == QueryFor(user) && !loading
      ensures query.Some? && result.Fetched? ==> foodItems == result.data && error.None?
      ensures query.None? || result.FetchFailed? ==> foodItems == old(foodItems) && error == Some(FetchFailedMessage)
      ensures currentPage == old(currentPage) && popupOpen == old(popupOpen) && popupMode == old(popupMode)
      ensures selectedFoodItem == old(selectedFoodItem) && deleteOpen == old(deleteOpen)
      ensures currentUser == old(currentUser) && toasts == old(toasts)
    {
      loading := true;
      query := QueryFor(user);
      if query.Some? && result.Fetched? {
        foodItems := result.data;
        error := None;
      } else {
        error := Some(FetchFailedMessage);
      }
      loading := false;
    }

    method Mount(user: LocalStorage.SessionUser, result: Fetch<seq<FoodItem>>)
      returns (query: Option<FoodQuery>)
      modifies this
      ensures currentUser == Some(user) && query == QueryFor(user) && !loading
      ensures query.Some? && result.Fetched? ==> foodItems == result.data && error.None?
      ensures query.None? || result.FetchFailed? ==> foodItems == old(foodItems) && error == Some(FetchFailedMessage)
      ensures currentPage == old(currentPage) && popupOpen == old(popupOpen) && popupMode == old(popupMode)
      ensures selectedFoodItem == old(selectedFoodItem) && deleteOpen == old(deleteOpen) && toasts == old(toasts)
    {
      currentUser := Some(user);
      query := FetchFoodItems(user, result);
    }

    function CurrentItems(): (r: seq<FoodItem>)
      reads this
      ensures |r| <= ItemsPerPage
      ensures currentPage >= 1 ==> (r == [] <==> currentPage > TotalPages(|foodItems|, ItemsPerPage))
      ensures forall k :: 0 <= k < |r| ==> r[k] in foodItems
    {
      PageFacts(foodItems, currentPage, ItemsPerPage);
      PageItems(foodItems, currentPage, ItemsPerPage)
    }

    method PageChange(page: int)
      modifies this
      ensures currentPage == page
      ensures foodItems == old(foodItems) && loading == old(loading) && error == old(error)
      ensures popupOpen == old(popupOpen) && popupMode == old(popupMode) && selectedFoodItem == old(selectedFoodItem)
      ensures deleteOpen == old(deleteOpen) && currentUser == old(currentUser) && toasts == old(toasts)
    {
      currentPage := page;
    }

    /** The edit and view buttons open the form on the item with that id, if
        any. */
    method Open(mode: PopupMode, id: int)
      requires mode != Add
      modifies this
      ensures popupOpen && popupMode == mode && selectedFoodItem == FindItem(foodItems, id)
      ensures foodItems == old(foodItems) && loading == old(loading) && error == old(error)
      ensures currentPage == old(currentPage) && deleteOpen == old(deleteOpen)
      ensures currentUser == old(currentUser) && toasts == old(toasts)
    {
      popupMode := mode;
      selectedFoodItem := FindItem(foodItems, id);
      popupOpen := true;
    }

    /** The delete button asks for confirmation only when the id names an item. */
    method HandleDelete(id: int)
      modifies this
      ensures FindItem(foodItems, id).Some? ==> deleteOpen && selectedFoodItem == FindItem(foodItems, id)
      ensures FindItem(foodItems, id).None? ==> deleteOpen == old(deleteOpen) && selectedFoodItem == old(selectedFoodItem)
      ensures foodItems == old(foodItems) && loading == old(loading) && error == old(error)
      ensures currentPage == old(currentPage) && popupOpen == old(popupOpen) && popupMode == old(popupMode)
      ensures currentUser == old(currentUser) && toasts == old(toasts)
    {
      var found := FindItem(foodItems, id);
      if found.Some? {
        selectedFoodItem := found;
        deleteOpen := true;
      }
    }

    /** Confirming a deletion: with an item selected, the success toast is
        shown and the table is fetched again; no deletion is requested, so the
        refreshed list is whatever the server still returns. The fetch uses
        the user read at mount (`currentUser`, here required to be set). */
    method ConfirmDelete(result: Fetch<seq<FoodItem>>) returns (query: Option<FoodQuery>)
      requires currentUser.Some?
      modifies this
      ensures currentUser == old(currentUser)
      ensures old(selectedFoodItem).None? ==> (query.None? && foodItems == old(foodItems)
        && toasts == old(toasts) && error == old(error) && loading == old(loading))
      ensures old(selectedFoodItem).Some? ==> (
        toasts == old(toasts) + [DeletedToast] && query == QueryFor(currentUser.value)
        && (query.Some? && result.Fetched? ==> foodItems == result.data && error.None?)
        && (query.None? || result.FetchFailed? ==> foodItems == old(foodItems) && error == Some(FetchFailedMessage)))
      ensures selectedFoodItem == old(selectedFoodItem) && deleteOpen == old(deleteOpen)
      ensures currentPage == old(currentPage) && popupOpen == old(popupOpen) && popupMode == old(popupMode)
    {
      if selectedFoodItem.None? {
        query := None;
        return;
      }
      toasts := toasts + [DeletedToast];
      query := FetchFoodItems(currentUser.value, result);
    }

    /** The delete dialog's `onClose`: only the dialog closes. */
    method CloseDelete()
      modifies this
      ensures !deleteOpen && selectedFoodItem == old(selectedFoodItem)
      ensures foodItems == old(foodItems) && loading == old(loading) && error == old(error)
      ensures currentPage == old(currentPage) && popupOpen == old(popupOpen) && popupMode == old(popupMode)
      ensures currentUser == old(currentUser) && toasts == old(toasts)
    {
      deleteOpen := false;
    }

    /** The dialog's delete button: `onConfirm` and then `onClose`, so the
        dialog always closes, with or without a selected item. */
    method ConfirmButton(result: Fetch<seq<FoodItem>>) returns (query: Option<FoodQuery>)
      requires currentUser.Some?
      modifies this
      ensures !deleteOpen && currentUser == old(currentUser) && selectedFoodItem == old(selectedFoodItem)
      ensures old(selectedFoodItem).None? ==> (query.None? && foodItems == old(foodItems)
        && toasts == old(toasts) && error == old(error) && loading == old(loading))
      ensures old(selectedFoodItem).Some? ==> (
        toasts == old(toasts) + [DeletedToast] && query == QueryFor(currentUser.value)
        && (query.Some? && result.Fetched? ==> foodItems == result.data && error.None?)
        && (query.None? || result.FetchFailed? ==> foodItems == old(foodItems) && error == Some(FetchFailedMessage)))
      ensures currentPage == old(currentPage) && popupOpen == old(popupOpen) && popupMode == old(popupMode)
    {
      query := ConfirmDelete(result);
      CloseDelete();
    }

    /** The form popup's `onClose`: only the popup closes. */
    method ClosePopup()
      modifies this
      ensures !popupOpen && popupMode == old(popupMode) && selectedFoodItem == old(selectedFoodItem)
      ensures foodItems == old(foodItems) && loading == old(loading) && error == old(error)
      ensures currentPage == old(currentPage) && deleteOpen == old(deleteOpen)
      ensures currentUser == old(currentUser) && toasts == old(toasts)
    {
      popupOpen := false;
    }

    /** The form's `onSubmit`: close the popup and fetch again. */
    method FormSubmitted(result: Fetch<seq<FoodItem>>) returns (query: Option<FoodQuery>)
      requires currentUser.Some?
      modifies this
      ensures currentUser == old(currentUser)
      ensures !popupOpen && query == QueryFor(currentUser.value)
      ensures query.Some? && result.Fetched? ==> foodItems == result.data && error.None?
      ensures query.None? || result.FetchFailed? ==> foodItems == old(foodItems) && error == Some(FetchFailedMessage)
      ensures currentPage == old(currentPage) && popupMode == old(popupMode) && selectedFoodItem == old(selectedFoodItem)
      ensures deleteOpen == old(deleteOpen) && toasts == old(toasts)
    {
      popupOpen := false;
      query := FetchFoodItems(currentUser.value, result);
    }
  }
}
