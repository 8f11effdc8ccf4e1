/** The order status update form: the statuses a role is offered, the checks
    made before submitting, the payload sent for each status, and the list of
    received quantities edited line by line. */
module EditOrder {
  import opened Common
  import LocalStorage

  /** An order line as loaded (`id` is optional in the record type). */
  datatype OrderLine = OrderLine(id: Option<int>, foodItemId: int, userId: string, quantity: int)

  datatype Order = Order(id: Option<string>, status: string, orderItems: seq<OrderLine>)

  datatype ReceivedItem = ReceivedItem(orderItemId: Option<int>, receivedQuantity: int)

  const SupplierStatuses: seq<string> := ["pending", "prepared", "collected"]
  const ConsumerStatuses: seq<string> := ["completed", "non-completed"]

  /** `getStatusOptions`, values only. */
  function StatusOptions(role: string): (r: seq<string>)
    ensures role == "supplier" ==> r == SupplierStatuses
    ensures (role == "normalEmployee" || role == "manager") ==> r == ConsumerStatuses
    ensures role !in {"supplier", "normalEmployee", "manager"} ==> r == []
  {
    if role == "supplier" then SupplierStatuses
    else if role == "normalEmployee" || role == "manager" then ConsumerStatuses
    else []
  }

  /** `management`, the role the rest of the front end uses for managers, is
      offered nothing; no status is offered to two different kinds of role. */
  lemma StatusOptionsByRole(role: string, s: string)
    ensures StatusOptions("management") == []
    ensures s in StatusOptions(role) ==> (s in SupplierStatuses <==> role == "supplier")
    ensures s in StatusOptions(role) ==> (s in ConsumerStatuses <==> role in {"normalEmployee", "manager"})
  {
  }

  /** `validateForm`: the first failing check's message, or None when it passes. */
  function ValidateForm(status: string, reason: string, collectedByUserId: string): (r: Option<string>)
    ensures r.None? <==> status != "" && (status == "non-completed" ==> reason != "")
                          && (status == "collected" ==> collectedByUserId != "")
    ensures status == "" ==> r == Some("Please select a status")
    ensures status == "non-completed" && reason == "" ==> r == Some("Please provide a reason for non-completion")
    ensures status == "collected" && collectedByUserId == "" ==> r == Some("Please provide collector information")
  {
    if status == "" then Some("Please select a status")
    else if status == "non-completed" && reason == "" then Some("Please provide a reason for non-completion")
    else if status == "collected" && collectedByUserId == "" then Some("Please provide collector information")
    else None
  }

  /** The check never looks at the role: a status outside the role's options
      passes as long as it is not one of the two special cases. */
  lemma ValidationIgnoresRole(role: string, status: string, reason: string, collector: string)
    requires status != "" && status != "non-completed" && status != "collected"
    ensures ValidateForm(status, reason, collector).None?
    ensures role == "supplier" && status == "completed" ==> status !in StatusOptions(role)
  {
  }

  /** The body sent to the status endpoint. */
  datatype StatusPayload =
    | StatusOnly(status: string)
    | NonCompletion(status: string, receivedItems: seq<ReceivedItem>, reason: string)
    | Collection(status: string, collectedByUserId: string)

  function PayloadKeys(p: StatusPayload): set<string> {
    match p
    case StatusOnly(_) => {"status"}
    case NonCompletion(_, _, _) => {"status", "receivedItems", "reason"}
    case Collection(_, _) => {"status", "collectedByUserId"}
  }

  function Payload(status: string, receivedItems: seq<ReceivedItem>, reason: string, collectedByUserId: string): (p: StatusPayload)
    ensures p.status == status
    ensures status == "non-completed" ==> p == NonCompletion(status, receivedItems, reason)
    ensures status == "collected" ==> p == Collection(status, collectedByUserId)
    ensures status != "non-completed" && status != "collected" ==> p == StatusOnly(status)
  {
    if status == "non-completed" then NonCompletion(status, receivedItems, reason)
    else if status == "collected" then Collection(status, collectedByUserId)
    else StatusOnly(status)
  }

  /** Received quantities travel only with a non-completion, the collector only
      with a collection, and every other status sends `status` alone. */
  lemma PayloadKeysByStatus(status: string, items: seq<ReceivedItem>, reason: string, collector: string)
    ensures var keys := PayloadKeys(Payload(status, items, reason, collector));
      ("receivedItems" in keys <==> status == "non-completed")
      && ("reason" in keys <==> status == "non-completed")
      && ("collectedByUserId" in keys <==> status == "collected")
      && (keys == {"status"} <==> status != "non-completed" && status != "collected")
  {
  }

  /** The received list built on load: one entry per order line, in order,
      starting at the ordered quantity. */
  function InitialReceived(lines: seq<OrderLine>): (r: seq<ReceivedItem>)
    ensures |r| == |lines|
    ensures forall i :: 0 <= i < |lines| ==> r[i].orderItemId == lines[i].id && r[i].receivedQuantity == lines[i].quantity
  {
    if lines == [] then []
    else [ReceivedItem(lines[0].id, lines[0].quantity)] + InitialReceived(lines[1..])
  }

  /** `receivedItems.map(item => item.orderItemId === id ? {...item, receivedQuantity: q} : item)`. */
  function SetReceived(rs: seq<ReceivedItem>, id: Option<int>, q: int): (r: seq<ReceivedItem>)
    ensures |r| == |rs|
    ensures forall i :: 0 <= i < |rs| && rs[i].orderItemId == id ==> r[i] == ReceivedItem(id, q)
    ensures forall i :: 0 <= i < |rs| && rs[i].orderItemId != id ==> r[i] == rs[i]
  {
    if rs == [] then []
    else [if rs[0].orderItemId == id then rs[0].(receivedQuantity := q) else rs[0]]
         + SetReceived(rs[1..], id, q)
  }

  /** Setting the same line twice keeps only the second value. */
  lemma SetReceivedLastWins(rs: seq<ReceivedItem>, id: Option<int>, a: int, b: int)
    ensures SetReceived(SetReceived(rs, id, a), id, b) == SetReceived(rs, id, b)
  {
    var r1 := SetReceived(SetReceived(rs, id, a), id, b);
    var r2 := SetReceived(rs, id, b);
    assert |r1| == |r2|;
    forall i | 0 <= i < |r1| ensures r1[i] == r2[i] {
    }
  }

  /** Edits on different lines do not interfere: their order does not matter. */
  lemma SetReceivedCommutes(rs: seq<ReceivedItem>, id1: Option<int>, id2: Option<int>, a: int, b: int)
    requires id1 != id2
    ensures SetReceived(SetReceived(rs, id1, a), id2, b) == SetReceived(SetReceived(rs, id2, b), id1, a)
  {
    var r1 := SetReceived(SetReceived(rs, id1, a), id2, b);
    var r2 := SetReceived(SetReceived(rs, id2, b), id1, a);
    assert |r1| == |r2|;
    forall i | 0 <= i < |r1| ensures r1[i] == r2[i] {
    }
  }

  /** When the order's line ids are distinct and present, editing line `k` on the
      fresh list changes entry `k` and no other. */
  lemma EditOneLine(lines: seq<OrderLine>, k: nat, q: int)
    requires k < |lines| && lines[k].id.Some?
    requires forall i, j :: 0 <= i < j < |lines| ==> lines[i].id != lines[j].id
    ensures var r := SetReceived(InitialReceived(lines), lines[k].id, q);
      |r| == |lines| && r[k] == ReceivedItem(lines[k].id, q)
      && forall i :: 0 <= i < |lines| && i != k ==> r[i] == InitialReceived(lines)[i]
  {
    var init := InitialReceived(lines);
    forall i | 0 <= i < |lines| && i != k
      ensures init[i].orderItemId != lines[k].id
    {
      assert init[i].orderItemId == lines[i].id;
    }
  }

  /** `parseInt(value) || 0`, with `parsed` the result of `parseInt` (None for
      NaN): only non-numeric input becomes 0; negative numbers and numbers
      above the ordered quantity are kept. */
  function ParseQuantity(parsed: Option<int>): (q: int)
    ensures parsed.Some? ==> q == parsed.value
    ensures parsed.None? ==> q == 0
  {
    if parsed.Some? && parsed.value != 0 then parsed.value else 0
  }

  lemma QuantitiesUnbounded(line: OrderLine)
    ensures ParseQuantity(Some(-1)) == -1 < 0
    ensures ParseQuantity(Some(line.quantity + 1)) > line.quantity
  {
  }

  /** `updateOrderStatus(order.id, payload)`. */
  datatype StatusUpdate = StatusUpdate(orderId: Option<string>, payload: StatusPayload)

  const UpdatedToast: string := "Order status updated successfully!"

  class EditOrderForm {
    const order: Option<Order>
    var status: string
    var collectedByUserId: string
    var receivedItems: seq<ReceivedItem>
    var reason: string
    var userRole: string
    var userId: string
    var loading: bool
    var toasts: seq<string>
    /** Every status update sent. */
    var updates: seq<StatusUpdate>
    /** How many times the parent's `onUpdate` callback was invoked. The submit
        handler's silent catch swallows whatever the callback throws, so the
        form's own state after a call does not depend on it. */
    var updateCallbacks: nat

    constructor (order: Option<Order>)
      ensures this.order == order
      ensures status == "" && collectedByUserId == "" && receivedItems == [] && reason == ""
      ensures userRole == "" && userId == "" && !loading && toasts == [] && updates == []
      ensures updateCallbacks == 0
    {
      this.order := order;
      status := "";
      collectedByUserId := "";
      receivedItems := [];
      reason := "";
      userRole := "";
      userId := "";
      loading := false;
      toasts := [];
      updates := [];
      updateCallbacks := 0;
    }

    /** The load effect: a stored user with role and id becomes the default
        collector; a present order fills the received list. */
    method Load(user: LocalStorage.SessionUser)
      modifies this
      ensures user.role != "" && user.id != "" ==>
        userRole == user.role && userId == user.id && collectedByUserId == user.id
      ensures !(user.role != "" && user.id != "") ==>
        userRole == old(userRole) && userId == old(userId) && collectedByUserId == old(collectedByUserId)
      ensures order.Some? ==> receivedItems == InitialReceived(order.value.orderItems)
      ensures order.None? ==> receivedItems == old(receivedItems)
      ensures status == old(status) && reason == old(reason) && loading == old(loading)
      ensures toasts == old(toasts) && updates == old(updates) && updateCallbacks == old(updateCallbacks)
    {
      if user.role != "" && user.id != "" {
        userRole := user.role;
        userId := user.id;
        collectedByUserId := user.id;
      }
      if order.Some? {
        receivedItems := InitialReceived(order.value.orderItems);
      }
    }

    method ChangeStatus(value: string)
      modifies this
      ensures status == value
      ensures collectedByUserId == old(collectedByUserId) && receivedItems == old(receivedItems) && reason == old(reason)
      ensures userRole == old(userRole) && userId == old(userId) && loading == old(loading)
      ensures toasts == old(toasts) && updates == old(updates) && updateCallbacks == old(updateCallbacks)
    {
      status := value;
    }

    method ChangeReason(value: string)
      modifies this
      ensures reason == value
      ensures status == old(status) && collectedByUserId == old(collectedByUserId) && receivedItems == old(receivedItems)
      ensures userRole == old(userRole) && userId == old(userId) && loading == old(loading)
      ensures toasts == old(toasts) && updates == old(updates) && updateCallbacks == old(updateCallbacks)
    {
      reason := value;
    }

    method ChangeCollector(value: string)
      modifies this
      ensures collectedByUserId == value
      ensures status == old(status) && receivedItems == old(receivedItems) && reason == old(reason)
      ensures userRole == old(userRole) && userId == old(userId) && loading == old(loading)
      ensures toasts == old(toasts) && updates == old(updates) && updateCallbacks == old(updateCallbacks)
    {
      collectedByUserId := value;
    }

    /** A quantity input changed: `parsed` is `parseInt` of its text. */
    method ChangeQuantity(orderItemId: Option<int>, parsed: Option<int>)
      modifies this
      ensures receivedItems == SetReceived(old(receivedItems), orderItemId, ParseQuantity(parsed))
      ensures status == old(status) && collectedByUserId == old(collectedByUserId) && reason == old(reason)
      ensures userRole == old(userRole) && userId == old(userId) && loading == old(loading)
      ensures toasts == old(toasts) && updates == old(updates) && updateCallbacks == old(updateCallbacks)
    {
      receivedItems := SetReceived(receivedItems, orderItemId, ParseQuantity(parsed));
    }

    /** Submitting: nothing is sent without an order or when a check fails (its
        message is toasted); otherwise the status's payload is sent. The API
        wrapper swallows its own errors, so success is always toasted and the
        parent's `onUpdate` is always called. */
    method Submit() returns (sent: Option<StatusUpdate>)
      modifies this
      ensures status == old(status) && collectedByUserId == old(collectedByUserId)
      ensures receivedItems == old(receivedItems) && reason == old(reason)
      ensures userRole == old(userRole) && userId == old(userId)
      ensures order.None? ==>
        sent.None? && toasts == old(toasts) && updates == old(updates) && loading == old(loading)
        && updateCallbacks == old(updateCallbacks)
      ensures order.Some? && ValidateForm(status, reason, collectedByUserId).Some? ==>
        sent.None? && updates == old(updates) && loading == old(loading) && updateCallbacks == old(updateCallbacks)
        && toasts == old(toasts) + [ValidateForm(status, reason, collectedByUserId).value]
      ensures order.Some? && ValidateForm(status, reason, collectedByUserId).None? ==>
        sent == Some(StatusUpdate(order.value.id, Payload(status, receivedItems, reason, collectedByUserId)))
        && updates == old(updates) + [sent.value] && toasts == old(toasts) + [UpdatedToast] && !loading
        && updateCallbacks == old(updateCallbacks) + 1
    {
      sent := None;
      if order.None? {
        return;
      }
      var check := ValidateForm(status, reason, collectedByUserId);
      if check.Some? {
        toasts := toasts + [check.value];
        return;
      }
      loading := true;
      var payload := StatusOnly(status);
      if status == "non-completed" {
        payload := NonCompletion(status, receivedItems, reason);
      } else if status == "collected" {
        payload := Collection(status, collectedByUserId);
      }
      var call := StatusUpdate(order.value.id, payload);
      updates := updates + [call];
      sent := Some(call);
      toasts := toasts + [UpdatedToast];
      updateCallbacks := updateCallbacks + 1;
      loading := false;
    }
  }
}
