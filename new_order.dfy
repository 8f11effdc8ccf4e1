/** The "today's special" order form: a draft list of order lines edited by
    index, the supplier choices drawn from the day's food items, and the
    checks made before a `pending` order is created. */
module NewOrder {
  import opened Common
  import LocalStorage

  /** One draft line, `{foodItemId, userId, quantity}`; the quantity is the
      `Number(...)` of the input's text. */
  datatype DraftLine = DraftLine(foodItemId: int, userId: string, quantity: real)

  const BlankLine: DraftLine := DraftLine(0, "", 1.0)

  /** A value for one field of a line, as the three inputs supply it. */
  datatype FieldValue = FoodItemValue(id: int) | UserValue(userId: string) | QuantityValue(n: real)

  /** `{...item, [field]: value}`. */
  function ApplyField(l: DraftLine, v: FieldValue): DraftLine {
    match v
    case FoodItemValue(id) => l.(foodItemId := id)
    case UserValue(u) => l.(userId := u)
    case QuantityValue(n) => l.(quantity := n)
  }

  /** `prev.map((item, i) => i === index ? ApplyField(item) : item)`. */
  function UpdateAt(lines: seq<DraftLine>, index: int, v: FieldValue): (r: seq<DraftLine>)
    ensures |r| == |lines|
    ensures forall i :: 0 <= i < |lines| && i != index ==> r[i] == lines[i]
    ensures 0 <= index < |lines| ==> r[index] == ApplyField(lines[index], v)
  {
    if lines == [] then []
    else [if index == 0 then ApplyField(lines[0], v) else lines[0]] + UpdateAt(lines[1..], index - 1, v)
  }

  /** `prev.filter((_, i) => i !== index)`. */
  function RemoveAt(lines: seq<DraftLine>, index: int): (r: seq<DraftLine>)
    ensures 0 <= index < |lines| ==> r == lines[..index] + lines[index + 1..]
    ensures !(0 <= index < |lines|) ==> r == lines
  {
    if lines == [] then []
    else
      var rest := RemoveAt(lines[1..], index - 1);
      if index == 0 then rest
      else
        assert 0 < index < |lines| ==> lines[..index] == [lines[0]] + lines[1..][..index - 1];
        assert 0 < index < |lines| ==> lines[index + 1..] == lines[1..][index..];
        [lines[0]] + rest
  }

  /** Updating one field of line `i` changes only that field of that line. */
  lemma UpdateChangesOneField(lines: seq<DraftLine>, index: nat, v: FieldValue)
    requires index < |lines|
    ensures var l := UpdateAt(lines, index, v)[index];
      match v
      case FoodItemValue(id) => l.foodItemId == id && l.userId == lines[index].userId && l.quantity == lines[index].quantity
      case UserValue(u) => l.userId == u && l.foodItemId == lines[index].foodItemId && l.quantity == lines[index].quantity
      case QuantityValue(n) => l.quantity == n && l.foodItemId == lines[index].foodItemId && l.userId == lines[index].userId
  {
  }

  /** Removing the line just added gives the draft back. */
  lemma AddThenRemove(lines: seq<DraftLine>)
    ensures RemoveAt(lines + [BlankLine], |lines|) == lines
  {
    assert (lines + [BlankLine])[..|lines|] == lines;
  }

  /** A day's food item: its supplier id and its supplier's meal type, either
      of which may be missing. */
  datatype TodayItem = TodayItem(id: int, name: string, price: real,
                                 supplierId: Option<string>, supplierFoodType: Option<string>)

  function SupplierIds(items: seq<TodayItem>): (r: seq<Option<string>>)
    ensures |r| == |items| && forall i :: 0 <= i < |items| ==> r[i] == items[i].supplierId
  {
    if items == [] then [] else [items[0].supplierId] + SupplierIds(items[1..])
  }

  predicate TruthyId(x: Option<string>) {
    x.Some? && x.value != ""
  }

  datatype SupplierOption = SupplierOption(value: string, shownLabel: string)

  /** `{value: id, label: "Supplier " + id}`; only truthy ids reach it. */
  function OptionFor(id: Option<string>): SupplierOption {
    var v := Coalesce(id, "");
    SupplierOption(v, "Supplier " + v)
  }

  function Labelled(ids: seq<Option<string>>): (r: seq<SupplierOption>)
    ensures |r| == |ids|
    ensures forall i :: 0 <= i < |ids| ==> r[i] == OptionFor(ids[i])
  {
    if ids == [] then [] else [OptionFor(ids[0])] + Labelled(ids[1..])
  }

  /** `Array.from(new Set(ids)).filter(id => id).map(id => ({value: id, label: "Supplier " + id}))`. */
  function SupplierOptions(items: seq<TodayItem>): seq<SupplierOption> {
    var kept := Filter(Distinct(SupplierIds(items)), TruthyId);
    Labelled(kept)
  }

  /** The ids that become options: the truthy ones, de-duplicated. */
  lemma KeptIds(items: seq<TodayItem>)
    ensures var kept := Filter(Distinct(SupplierIds(items)), TruthyId);
      NoDuplicates(kept)
      && (forall i :: 0 <= i < |kept| ==> TruthyId(kept[i]) && kept[i] in SupplierIds(items))
      && (forall k :: 0 <= k < |items| && TruthyId(items[k].supplierId) ==> items[k].supplierId in kept)
  {
    var ids := SupplierIds(items);
    var d := Distinct(ids);
    DistinctElements(ids);
    FilterKeepsDistinct(d, TruthyId);
    forall k | 0 <= k < |items| && TruthyId(items[k].supplierId)
      ensures items[k].supplierId in Filter(d, TruthyId)
    {
      assert ids[k] in d;
    }
  }

  /** The options list each truthy supplier id of the day's items exactly once,
      no empty or missing id, and labels each "Supplier <id>". */
  lemma SupplierOptionsSpec(items: seq<TodayItem>)
    ensures var opts := SupplierOptions(items);
      (forall i, j :: 0 <= i < j < |opts| ==> opts[i].value != opts[j].value)
      && (forall i :: 0 <= i < |opts| ==> opts[i].value != "" && opts[i].shownLabel == "Supplier " + opts[i].value)
      && (forall i :: 0 <= i < |opts| ==> exists k :: 0 <= k < |items| && items[k].supplierId == Some(opts[i].value))
      && (forall k :: 0 <= k < |items| && TruthyId(items[k].supplierId) ==>
            exists i :: 0 <= i < |opts| && opts[i].value == items[k].supplierId.value)
  {
    var ids := SupplierIds(items);
    var kept := Filter(Distinct(ids), TruthyId);
    KeptIds(items);
    var opts := Labelled(kept);
    forall i, j | 0 <= i < j < |opts|
      ensures opts[i].value != opts[j].value
    {
      assert kept[i] != kept[j];
    }
    forall i | 0 <= i < |opts|
      ensures exists k :: 0 <= k < |items| && items[k].supplierId == Some(opts[i].value)
    {
      var k :| 0 <= k < |ids| && ids[k] == kept[i];
      assert items[k].supplierId == Some(opts[i].value);
    }
    forall k | 0 <= k < |items| && TruthyId(items[k].supplierId)
      ensures exists i :: 0 <= i < |opts| && opts[i].value == items[k].supplierId.value
    {
      var i :| 0 <= i < |kept| && kept[i] == items[k].supplierId;
      assert opts[i].value == items[k].supplierId.value;
    }
  }

  lemma {:induction false} FilterKeepsDistinct<T>(s: seq<T>, p: T -> bool)
    requires NoDuplicates(s)
    ensures NoDuplicates(Filter(s, p))
  {
    if s != [] {
      FilterKeepsDistinct(s[1..], p);
      var rest := Filter(s[1..], p);
      if p(s[0]) {
        assert forall i :: 0 <= i < |rest| ==> rest[i] in s[1..];
        assert s[0] !in s[1..];
      }
    }
  }

  /** There are never more supplier options than food items. */
  lemma SupplierOptionsAtMostItems(items: seq<TodayItem>)
    ensures |SupplierOptions(items)| <= |items|
  {
    DistinctLength(SupplierIds(items));
  }

  lemma {:induction false} DistinctLength<T>(s: seq<T>)
    ensures |Distinct(s)| <= |s|
  {
    if s != [] {
      DistinctLength(s[..|s| - 1]);
    }
  }

  /** `items.length > 0 ? items[0].supplier?.foodType ?? "" : ""`. */
  function MealType(items: seq<TodayItem>): (m: string)
    ensures items == [] ==> m == ""
    ensures items != [] ==> m == Coalesce(items[0].supplierFoodType, "")
  {
    if |items| > 0 then Coalesce(items[0].supplierFoodType, "") else ""
  }

  datatype DepartmentUser = DepartmentUser(id: Option<string>, name: Option<string>)

  predicate Named(u: DepartmentUser) {
    TruthyId(u.id) && TruthyId(u.name)
  }

  /** Only users with both a truthy id and a truthy name are listed. */
  lemma NamedUsersOnly(users: seq<DepartmentUser>)
    ensures forall i :: 0 <= i < |Filter(users, Named)| ==> Named(Filter(users, Named)[i])
    ensures forall u :: u in users && Named(u) ==> u in Filter(users, Named)
  {
    forall u | u in users && Named(u) ensures u in Filter(users, Named) {
      var k :| 0 <= k < |users| && users[k] == u;
    }
  }

  /** A line is refused when it has no food item (0), no user, or a quantity
      of 0 or less. */
  predicate LineInvalid(l: DraftLine) {
    l.foodItemId == 0 || l.userId == "" || l.quantity <= 0.0
  }

  /** The submit checks: the first failing check's message, or None. */
  function CheckDraft(selectedSupplier: string, lines: seq<DraftLine>): (r: Option<string>)
    ensures r.None? <==> selectedSupplier != "" && lines != [] && forall i :: 0 <= i < |lines| ==> !LineInvalid(lines[i])
    ensures selectedSupplier == "" ==> r == Some("Please select a supplier")
    ensures selectedSupplier != "" && lines == [] ==> r == Some("Please add at least one order item")
  {
    if selectedSupplier == "" then Some("Please select a supplier")
    else if |lines| == 0 then Some("Please add at least one order item")
    else if |Filter(lines, LineInvalid)| > 0 then Some("Please fill all fields for each order item")
    else None
  }

  /** A fresh draft line never passes the checks: its food item is 0. */
  lemma BlankLineRefused(s: string, lines: seq<DraftLine>)
    ensures CheckDraft(s, lines + [BlankLine]).Some?
  {
    assert (lines + [BlankLine])[|lines|] == BlankLine;
  }

  /** The order sent to the order API. */
  datatype OrderRequest = OrderRequest(
    orderCreatorUserId: string, status: string, supplierId: string,
    departmentId: Option<int>, mealType: string, items: seq<DraftLine>)

  function BuildOrder(currentUserId: string, selectedSupplier: string, departmentId: Option<int>,
                      mealType: string, lines: seq<DraftLine>): (o: OrderRequest)
    ensures o.status == "pending"
    ensures o.orderCreatorUserId == (if currentUserId != "" then currentUserId else "U002")
    ensures o.supplierId == selectedSupplier && o.departmentId == departmentId
    ensures o.mealType == mealType && o.items == lines
  {
    OrderRequest(if currentUserId != "" then currentUserId else "U002", "pending",
                 selectedSupplier, departmentId, mealType, lines)
  }

  /** `if (currentDepartmentId)`: a parsed id of 0 is falsy. */
  predicate HasDepartment(id: Option<int>) {
    id.Some? && id.value != 0
  }

  /** The toast the department-user step adds, if any. */
  function UsersToast(id: Option<int>, users: Fetch<Option<seq<DepartmentUser>>>): (r: seq<string>)
    ensures !HasDepartment(id) ==> r == ["User department not found"]
    ensures HasDepartment(id) && users.FetchFailed? ==> r == ["Failed to fetch department users"]
    ensures HasDepartment(id) && users.Fetched? ==> r == []
  {
    if !HasDepartment(id) then ["User department not found"]
    else if users.FetchFailed? then ["Failed to fetch department users"]
    else []
  }

  class NewOrderForm {
    const currentUser: LocalStorage.SessionUser
    /** `departmentId ? parseInt(departmentId) : null`, the parse done by the caller. */
    const currentDepartmentId: Option<int>
    var orderItems: seq<DraftLine>
    var selectedSupplier: string
    var mealType: string
    var loading: bool
    var foodItems: seq<TodayItem>
    var departmentUsers: seq<DepartmentUser>
    var toasts: seq<string>
    /** Every order sent. */
    var created: seq<OrderRequest>
    var navigatedTo: Option<string>

    constructor (user: LocalStorage.SessionUser, departmentId: Option<int>)
      requires user.departmentId == "" ==> departmentId.None?
      ensures currentUser == user && currentDepartmentId == departmentId
      ensures orderItems == [] && selectedSupplier == "" && mealType == "" && loading
      ensures foodItems == [] && departmentUsers == [] && toasts == [] && created == [] && navigatedTo.None?
    {
      currentUser := user;
      currentDepartmentId := departmentId;
      orderItems := [];
      selectedSupplier := "";
      mealType := "";
      loading := true;
      foodItems := [];
      departmentUsers := [];
      toasts := [];
      created := [];
      navigatedTo := None;
    }

    /** The data load. The departments list is fetched first and only its
        failure matters; the department users are fetched only for a truthy
        department id (0 is falsy), and their failure is toasted without
        stopping the load; a failure of the day's items stops it. An
        `undefined` result reads as the empty list. */
    method Load(departmentsFailed: bool, users: Fetch<Option<seq<DepartmentUser>>>, items: Fetch<Option<seq<TodayItem>>>)
      modifies this
      ensures !loading
      ensures departmentsFailed ==> (departmentUsers == old(departmentUsers) && foodItems == old(foodItems)
        && mealType == old(mealType) && toasts == old(toasts) + ["Failed to load form data"])
      ensures !departmentsFailed ==> (
        var afterUsers := old(toasts) + UsersToast(currentDepartmentId, users);
        (HasDepartment(currentDepartmentId) && users.Fetched? ==> departmentUsers == Filter(Coalesce(users.data, []), Named))
        && (!(HasDepartment(currentDepartmentId) && users.Fetched?) ==> departmentUsers == old(departmentUsers))
        && (items.Fetched? ==> foodItems == Coalesce(items.data, []) && mealType == MealType(foodItems) && toasts == afterUsers)
        && (items.FetchFailed? ==> (foodItems == old(foodItems) && mealType == old(mealType)
              && toasts == afterUsers + ["Failed to load form data"])))
      ensures orderItems == old(orderItems) && selectedSupplier == old(selectedSupplier)
      ensures created == old(created) && navigatedTo == old(navigatedTo)
    {
      loading := true;
      if departmentsFailed {
        toasts := toasts + ["Failed to load form data"];
        loading := false;
        return;
      }
      if HasDepartment(currentDepartmentId) {
        match users {
          case Fetched(data) =>
            departmentUsers := Filter(Coalesce(data, []), Named);
          case FetchFailed =>
            toasts := toasts + ["Failed to fetch department users"];
        }
      } else {
        toasts := toasts + ["User department not found"];
      }
      match items {
        case Fetched(data) =>
          foodItems := Coalesce(data, []);
          mealType := MealType(foodItems);
        case FetchFailed =>
          toasts := toasts + ["Failed to load form data"];
      }
      loading := false;
    }

    method AddOrderItem()
      modifies this
      ensures orderItems == old(orderItems) + [BlankLine]
      ensures selectedSupplier == old(selectedSupplier) && mealType == old(mealType) && foodItems == old(foodItems)
      ensures departmentUsers == old(departmentUsers) && toasts == old(toasts) && created == old(created)
      ensures navigatedTo == old(navigatedTo) && loading == old(loading)
    {
      orderItems := orderItems + [BlankLine];
    }

    method UpdateOrderItem(index: int, v: FieldValue)
      modifies this
      ensures orderItems == UpdateAt(old(orderItems), index, v)
      ensures selectedSupplier == old(selectedSupplier) && mealType == old(mealType) && foodItems == old(foodItems)
      ensures departmentUsers == old(departmentUsers) && toasts == old(toasts) && created == old(created)
      ensures navigatedTo == old(navigatedTo) && loading == old(loading)
    {
      orderItems := UpdateAt(orderItems, index, v);
    }

    method RemoveOrderItem(index: int)
      modifies this
      ensures orderItems == RemoveAt(old(orderItems), index)
      ensures selectedSupplier == old(selectedSupplier) && mealType == old(mealType) && foodItems == old(foodItems)
      ensures departmentUsers == old(departmentUsers) && toasts == old(toasts) && created == old(created)
      ensures navigatedTo == old(navigatedTo) && loading == old(loading)
    {
      orderItems := RemoveAt(orderItems, index);
    }

    method SelectSupplier(value: string)
      modifies this
      ensures selectedSupplier == value
      ensures orderItems == old(orderItems) && mealType == old(mealType) && foodItems == old(foodItems)
      ensures departmentUsers == old(departmentUsers) && toasts == old(toasts) && created == old(created)
      ensures navigatedTo == old(navigatedTo) && loading == old(loading)
    {
      selectedSupplier := value;
    }

    /** Submitting: a failed check is toasted and nothing is sent; otherwise
        the order is sent and the page moves to "/orders". The order API
        wrapper swallows its own errors, so the success path always follows. */
    method Submit() returns (sent: Option<OrderRequest>)
      modifies this
      ensures orderItems == old(orderItems) && selectedSupplier == old(selectedSupplier)
      ensures mealType == old(mealType) && foodItems == old(foodItems) && departmentUsers == old(departmentUsers)
      ensures loading == old(loading)
      ensures CheckDraft(old(selectedSupplier), old(orderItems)).Some? ==> (
        sent.None? && created == old(created) && navigatedTo == old(navigatedTo)
        && toasts == old(toasts) + [CheckDraft(old(selectedSupplier), old(orderItems)).value])
      ensures CheckDraft(old(selectedSupplier), old(orderItems)).None? ==> (
        sent == Some(BuildOrder(currentUser.id, selectedSupplier, currentDepartmentId, mealType, orderItems))
        && created == old(created) + [sent.value] && navigatedTo == Some("/orders")
        && toasts == old(toasts) + ["Order created successfully!"])
    {
      var check := CheckDraft(selectedSupplier, orderItems);
      if check.Some? {
        toasts := toasts + [check.value];
        sent := None;
        return;
      }
      var order := BuildOrder(currentUser.id, selectedSupplier, currentDepartmentId, mealType, orderItems);
      created := created + [order];
      sent := Some(order);
      toasts := toasts + ["Order created successfully!"];
      navigatedTo := Some("/orders");
    }
  }
}
