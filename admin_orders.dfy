/**
 * The admin order list: the ship and cancel actions it offers, the
 * confirmation and tracking-id modals, and the in-place update of one order
 * in the list once the status route accepts a change.
 */
module AdminOrders {
  import opened Wrappers
  import opened Domain

  /** Shipped and cancelled orders are final as far as this screen goes. */
  predicate IsTerminal(s: OrderStatus) {
    s == Shipped || s == Cancelled
  }

  /** The buttons a row shows: ship and cancel, unless the order is already shipped or cancelled. */
  function ActionsOffered(o: Order): (r: seq<OrderStatus>)
    ensures r == [] <==> IsTerminal(o.status)
    ensures forall s :: s in r ==> IsTerminal(s)
  {
    if o.status != Shipped && o.status != Cancelled then [Shipped, Cancelled] else []
  }

  /** `prev.map(o => o.id === orderId ? { ...o, status, tracking_id } : o)`. */
  function UpdateStatusList(orders: seq<Order>, orderId: int, status: OrderStatus, trackingId: Option<string>)
    : (r: seq<Order>)
    ensures |r| == |orders|
    ensures forall i :: 0 <= i < |orders| ==> r[i].id == orders[i].id
    ensures forall i :: 0 <= i < |orders| && orders[i].id != orderId ==> r[i] == orders[i]
    ensures forall i :: 0 <= i < |orders| && orders[i].id == orderId ==>
      r[i] == orders[i].(status := status, trackingId := trackingId)
  {
    seq(|orders|, i requires 0 <= i < |orders| =>
      if orders[i].id == orderId then orders[i].(status := status, trackingId := trackingId) else orders[i])
  }

  /** Applying the same update twice is applying it once. */
  lemma UpdateStatusIdempotent(orders: seq<Order>, orderId: int, status: OrderStatus, trackingId: Option<string>)
    ensures var once := UpdateStatusList(orders, orderId, status, trackingId);
      UpdateStatusList(once, orderId, status, trackingId) == once
  {
  }

  /** Updates of two different orders can be applied in either order. */
  lemma UpdatesOfDifferentOrdersCommute(orders: seq<Order>, a: int, sa: OrderStatus, ta: Option<string>,
                                        b: int, sb: OrderStatus, tb: Option<string>)
    requires a != b
    ensures UpdateStatusList(UpdateStatusList(orders, a, sa, ta), b, sb, tb)
         == UpdateStatusList(UpdateStatusList(orders, b, sb, tb), a, sa, ta)
  {
  }

  /** An order updated through one of its row's buttons offers no further action. */
  lemma OfferedActionIsFinal(orders: seq<Order>, k: int, s: OrderStatus, trackingId: Option<string>)
    requires 0 <= k < |orders| && s in ActionsOffered(orders[k])
    ensures ActionsOffered(UpdateStatusList(orders, orders[k].id, s, trackingId)[k]) == []
  {
  }

  datatype ModalKind = NoModal | ConfirmModal | InputModal

  /** The action kept for the modal's confirm button. */
  datatype PendingAction =
    | NoAction
    | ShipOrder(orderId: int)
    | ChangeStatus(orderId: int, status: OrderStatus)

  /** The body of the status request: `{ status, trackingId }` for one order. */
  datatype StatusRequest = StatusRequest(orderId: int, status: OrderStatus, trackingId: Option<string>)

  /**
   * What confirming sends: the ship action receives the typed tracking id
   * when the input modal is open; the other actions take no argument and
   * send a null tracking id.
   */
  function RequestOnConfirm(action: PendingAction, modal: ModalKind, inputVal: string): (r: Option<StatusRequest>)
    ensures r.None? <==> action.NoAction?
    ensures r.Some? ==> r.value.orderId == action.orderId
    ensures action.ShipOrder? ==> r.value.status == Shipped
    ensures action.ShipOrder? && modal == InputModal ==> r.value.trackingId == Some(inputVal)
    ensures action.ChangeStatus? ==> r.value.status == action.status && r.value.trackingId.None?
  {
    match action
    case NoAction => None
    case ShipOrder(id) => Some(StatusRequest(id, Shipped, if modal == InputModal then Some(inputVal) else None))
    case ChangeStatus(id, s) => Some(StatusRequest(id, s, None))
  }

  /** The list screen's state. */
  class OrdersScreen {
    var orders: seq<Order>
    var activeModal: ModalKind
    var modalTitle: string
    var inputVal: string
    var pendingAction: PendingAction

    /** A pending action goes with the modal that was opened for it; no modal, no action. */
    ghost predicate Valid()
      reads this
    {
      && (pendingAction.ShipOrder? ==> activeModal == InputModal)
      && (pendingAction.ChangeStatus? ==> activeModal == ConfirmModal)
      && (activeModal == NoModal ==> pendingAction == NoAction)
    }

    constructor (initialOrders: seq<Order>)
      ensures Valid()
      ensures orders == initialOrders && activeModal == NoModal && pendingAction == NoAction && inputVal == ""
    {
      orders := initialOrders;
      activeModal := NoModal;
      modalTitle := "";
      inputVal := "";
      pendingAction := NoAction;
    }

    /** `openConfirm`. */
    method OpenConfirm(title: string, action: PendingAction)
      requires action.ChangeStatus?
      modifies this`modalTitle, this`pendingAction, this`activeModal
      ensures Valid()
      ensures modalTitle == title && pendingAction == action && activeModal == ConfirmModal
    {
      modalTitle := title;
      pendingAction := action;
      activeModal := ConfirmModal;
    }

    /** `openInput`: also empties the input field. */
    method OpenInput(title: string, action: PendingAction)
      requires action.ShipOrder?
      modifies this`modalTitle, this`inputVal, this`pendingAction, this`activeModal
      ensures Valid()
      ensures modalTitle == title && inputVal == "" && pendingAction == action && activeModal == InputModal
    {
      modalTitle := title;
      inputVal := "";
      pendingAction := action;
      activeModal := InputModal;
    }

    /** `closeModal`. */
    method CloseModal()
      modifies this`activeModal, this`pendingAction
      ensures Valid()
      ensures activeModal == NoModal && pendingAction == NoAction
    {
      activeModal := NoModal;
      pendingAction := NoAction;
    }

    /** Typing in the tracking-id field. */
    method SetInput(value: string)
      modifies this`inputVal
      ensures inputVal == value
    {
      inputVal := value;
    }

    /** `handleStatusChange`: shipping asks for a tracking id, anything else asks for confirmation. */
    method HandleStatusChange(orderId: int, newStatus: OrderStatus)
      modifies this`modalTitle, this`inputVal, this`pendingAction, this`activeModal
      ensures Valid()
      ensures newStatus == Shipped ==>
        activeModal == InputModal && pendingAction == ShipOrder(orderId) && inputVal == ""
      ensures newStatus != Shipped ==>
        activeModal == ConfirmModal && pendingAction == ChangeStatus(orderId, newStatus) && inputVal == old(inputVal)
    {
      if newStatus == Shipped {
        OpenInput("Tracking Information", ShipOrder(orderId));
      } else {
        OpenConfirm("Confirm Action", ChangeStatus(orderId, newStatus));
      }
    }

    /**
     * `handleConfirm`: runs the pending action (with the input in input mode)
     * and closes the modal.  `accepted` is the status route's answer: only an
     * accepted change is written into the list, and only into the order it names.
     */
    method HandleConfirm(accepted: bool) returns (sent: Option<StatusRequest>)
      requires Valid()
      modifies this`orders, this`activeModal, this`pendingAction
      ensures Valid()
      ensures activeModal == NoModal && pendingAction == NoAction
      ensures sent == RequestOnConfirm(old(pendingAction), old(activeModal), inputVal)
      ensures old(pendingAction).ShipOrder? ==> sent == Some(StatusRequest(old(pendingAction).orderId, Shipped, Some(inputVal)))
      ensures sent.Some? && accepted ==>
        orders == UpdateStatusList(old(orders), sent.value.orderId, sent.value.status, sent.value.trackingId)
      ensures sent.None? || !accepted ==> orders == old(orders)
    {
      sent := RequestOnConfirm(pendingAction, activeModal, inputVal);
      if sent.Some? && accepted {
        orders := UpdateStatusList(orders, sent.value.orderId, sent.value.status, sent.value.trackingId);
      }
      CloseModal();
    }
  }
}
