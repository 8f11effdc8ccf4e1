/** The orders table: which orders a role is shown, five per page, the badge
    colour of each status, and the popup opened on a row. */
module OrdersTable {
  import opened Common
  import opened Pagination
  import LocalStorage
  import EditOrder

  const ItemsPerPage: nat := 5

  /** The order query a role makes. */
  datatype OrderQuery = ByUser(userId: string) | AllOrders | BySupplier(supplierId: string)

  /** Employees see their own orders, management sees all, a supplier sees the
      orders placed with it; any other role makes no query. */
  function QueryFor(role: string, id: string, roleId: string): (q: Option<OrderQuery>)
    ensures q.None? <==> role != "normalEmployee" && role != "management" && role != "supplier"
    ensures role == "normalEmployee" ==> q == Some(ByUser(id))
    ensures role == "management" ==> q == Some(AllOrders)
    ensures role == "supplier" ==> q == Some(BySupplier(roleId))
  {
    if role == "normalEmployee" then Some(ByUser(id))
    else if role == "management" then Some(AllOrders)
    else if role == "supplier" then Some(BySupplier(roleId))
    else None
  }

  /** Only the supplier's query depends on the role id, and only the
      employee's on the user id. */
  lemma QueryInputs(role: string, id1: string, id2: string, r1: string, r2: string)
    ensures role != "supplier" ==> QueryFor(role, id1, r1) == QueryFor(role, id1, r2)
    ensures role != "normalEmployee" ==> QueryFor(role, id1, r1) == QueryFor(role, id2, r1)
  {
  }

  datatype BadgeColor = Warning | Info | Success | Error | Dark | Light

  function StatusColor(status: string): BadgeColor {
    match status
    case "pending" => Warning
    case "prepared" => Info
    case "collected" => Light
    case "completed" => Success
    case "non-completed" => Error
    case "cancelled" => Dark
    case _ => Light
  }

  /** Every colour but `light` marks exactly one status; `light` is shared by
      "collected" and every status outside the list. */
  lemma StatusColorCases(status: string)
    ensures StatusColor(status) == Warning <==> status == "pending"
    ensures StatusColor(status) == Info <==> status == "prepared"
    ensures StatusColor(status) == Success <==> status == "completed"
    ensures StatusColor(status) == Error <==> status == "non-completed"
    ensures StatusColor(status) == Dark <==> status == "cancelled"
    ensures StatusColor(status) == Light <==>
      status !in ["pending", "prepared", "completed", "non-completed", "cancelled"]
  {
  }

  datatype PopupMode = View | Edit | Update

  /** `orders.find(order => order.id === id)`. */
  function FindOrder(orders: seq<EditOrder.Order>, id: Option<string>): (r: Option<EditOrder.Order>)
    ensures r.Some? ==> r.value in orders && r.value.id == id
    ensures r.None? <==> forall i :: 0 <= i < |orders| ==> orders[i].id != id
  {
    Find(orders, (o: EditOrder.Order) => o.id == id)
  }

  class OrderTable {
    var orders: seq<EditOrder.Order>
    var loading: bool
    var error: Option<string>
    var currentPage: int
    var popupOpen: bool
    var popupMode: PopupMode
    var selectedOrder: Option<EditOrder.Order>
    var userRole: string
    var userId: string

    constructor ()
      ensures orders == [] && loading && error.None? && currentPage == 1
      ensures !popupOpen && popupMode == View && selectedOrder.None?
      ensures userRole == "" && userId == ""
    {
      orders := [];
      loading := true;
      error := None;
      currentPage := 1;
      popupOpen := false;
      popupMode := View;
      selectedOrder := None;
      userRole := "";
      userId := "";
    }

    /** Mounting: a session user with a role and an id makes its role's query
        (`fetched` is the API's answer; an `undefined` answer shows no
        orders); otherwise nothing is fetched and an error is shown. */
    method Mount(user: LocalStorage.SessionUser, fetched: Option<seq<EditOrder.Order>>)
      returns (query: Option<OrderQuery>)
      modifies this
      ensures !loading
      ensures user.role == "" || user.id == "" ==> (
        query.None? && error == Some("User information not found. Please log in again.")
        && orders == old(orders) && userRole == old(userRole) && userId == old(userId))
      ensures user.role != "" && user.id != "" ==> (
        query == QueryFor(user.role, user.id, user.roleId)
        && userRole == user.role && userId == user.id
        && (query.Some? ==> orders == Coalesce(fetched, []) && error.None?)
        && (query.None? ==> orders == old(orders) && error == Some("Invalid user role")))
      ensures currentPage == old(currentPage) && popupOpen == old(popupOpen)
      ensures popupMode == old(popupMode) && selectedOrder == old(selectedOrder)
    {
      if user.role != "" && user.id != "" {
        userRole := user.role;
        userId := user.id;
        loading := true;
        query := QueryFor(user.role, user.id, user.roleId);
        if query.Some? {
          orders := Coalesce(fetched, []);
          error := None;
        } else {
          error := Some("Invalid user role");
        }
        loading := false;
      } else {
        query := None;
        error := Some("User information not found. Please log in again.");
        loading := false;
      }
    }

    function TotalPagesShown(): (r: nat)
      reads this
      ensures |orders| <= r * ItemsPerPage
      ensures r == 0 || (r - 1) * ItemsPerPage < |orders|
    {
      TotalPages(|orders|, ItemsPerPage)
    }

    /** The rows on the current page: at most five, and none past the last page. */
    function CurrentItems(): (r: seq<EditOrder.Order>)
      reads this
      ensures |r| <= ItemsPerPage
      ensures currentPage >= 1 ==> (r == [] <==> currentPage > TotalPagesShown())
      ensures forall k :: 0 <= k < |r| ==> r[k] in orders
    {
      PageFacts(orders, currentPage, ItemsPerPage);
      PageItems(orders, currentPage, ItemsPerPage)
    }

    method PageChange(page: int)
      modifies this
      ensures currentPage == page
      ensures orders == old(orders) && loading == old(loading) && error == old(error)
      ensures popupOpen == old(popupOpen) && popupMode == old(popupMode) && selectedOrder == old(selectedOrder)
      ensures userRole == old(userRole) && userId == old(userId)
    {
      currentPage := page;
    }

    /** The eye button: the order with that id, in view mode. */
    method HandleView(id: Option<string>)
      modifies this
      ensures popupOpen && popupMode == View && selectedOrder == FindOrder(orders, id)
      ensures orders == old(orders) && loading == old(loading) && error == old(error)
      ensures currentPage == old(currentPage) && userRole == old(userRole) && userId == old(userId)
    {
      popupMode := View;
      selectedOrder := FindOrder(orders, id);
      popupOpen := true;
    }

    /** The edit button, shown to every role: the order with that id, in
        update mode. */
    method HandleUpdateStatus(id: Option<string>)
      modifies this
      ensures popupOpen && popupMode == Update && selectedOrder == FindOrder(orders, id)
      ensures orders == old(orders) && loading == old(loading) && error == old(error)
      ensures currentPage == old(currentPage) && userRole == old(userRole) && userId == old(userId)
    {
      popupMode := Update;
      selectedOrder := FindOrder(orders, id);
      popupOpen := true;
    }
  

    /** The popup's `onClose`: only the popup closes; mode and selection are kept. */
    method ClosePopup()
      modifies this
      ensures !popupOpen && popupMode == old(popupMode) && selectedOrder == old(selectedOrder)
      ensures orders == old(orders) && loading == old(loading) && error == old(error)
      ensures currentPage == old(currentPage) && userRole == old(userRole) && userId == old(userId)
    {
      popupOpen := false;
    }
  }
}
