// The partner's order list (features/partner/PartnerOrdersPage.tsx): the
// active and completed tabs, and the status moves each order's row offers.
// The buttons only dispatch `updateOrderStatus`; the store itself accepts
// any status (see DataStore.DataStore.UpdateOrderStatus).
module PartnerOrders {
  import opened Types
  import opened Lists

  /** The statuses of the 'active' tab. */
  const ActiveStatuses: seq<OrderStatus> := [Placed, Confirmed, Preparing, RiderAssigned, OutForDelivery]

  /** The statuses of the 'completed' tab. */
  const CompletedStatuses: seq<OrderStatus> := [Delivered, Cancelled]

  datatype Tab = ActiveTab | CompletedTab

  function InTab(tab: Tab): Order -> bool
  {
    (o: Order) => if tab == ActiveTab then o.status in ActiveStatuses else o.status in CompletedStatuses
  }

  /** The orders listed under a tab, in store order. */
  function TabOrders(orders: seq<Order>, tab: Tab): seq<Order>
  {
    Filter(orders, InTab(tab))
  }

  /** An order is listed under a tab exactly when its status belongs to that tab. */
  lemma TabOrdersExact(orders: seq<Order>, tab: Tab, o: Order)
    ensures o in TabOrders(orders, tab) <==>
      o in orders && (if tab == ActiveTab then o.status in ActiveStatuses else o.status in CompletedStatuses)
  {
    if o in orders {
      var i :| 0 <= i < |orders| && orders[i] == o;
    }
  }

  /** Ready and Picked Up orders appear under neither tab. */
  lemma ReadyAndPickedUpUnlisted(orders: seq<Order>, o: Order)
    requires o.status == Ready || o.status == PickedUp
    ensures o !in TabOrders(orders, ActiveTab) && o !in TabOrders(orders, CompletedTab)
  {
    TabOrdersExact(orders, ActiveTab, o);
    TabOrdersExact(orders, CompletedTab, o);
  }

  function Hidden(o: Order): bool
  {
    o.status == Ready || o.status == PickedUp
  }

  function Any(o: Order): bool
  {
    true
  }

  function Listed(o: Order): bool
  {
    InTab(ActiveTab)(o) || InTab(CompletedTab)(o)
  }

  /**
   * The two tabs never share an order, and together with the Ready and
   * Picked Up orders they account for every order.
   */
  lemma TabsPartition(orders: seq<Order>)
    ensures Count(orders, InTab(ActiveTab)) + Count(orders, InTab(CompletedTab)) + Count(orders, Hidden) == |orders|
  {
    CountPartition(orders, InTab(ActiveTab), InTab(CompletedTab), Listed);
    CountPartition(orders, Listed, Hidden, Any);
    FilterAll(orders, Any);
  }

  /**
   * What an order's row offers (renderActions): status moves, a Delay
   * button, the disabled 'Waiting for Rider' button, or nothing.
   */
  datatype PartnerActions =
    | Moves(moves: seq<OrderStatus>, delay: bool)
    | WaitingForRider
    | NoActions

  function RowActions(s: OrderStatus): PartnerActions
  {
    match s
    case Placed => Moves([Confirmed, Cancelled], false)
    case Confirmed => Moves([Preparing], true)
    case Preparing => Moves([RiderAssigned], true)
    case RiderAssigned => WaitingForRider
    case _ => NoActions
  }

  /** The statuses a row's buttons can dispatch. */
  function Offered(s: OrderStatus): seq<OrderStatus>
  {
    if RowActions(s).Moves? then RowActions(s).moves else []
  }

  /** The partner's path: Placed, Confirmed, Preparing, Rider Assigned. */
  function Stage(s: OrderStatus): Option<nat>
  {
    match s
    case Placed => Some(0)
    case Confirmed => Some(1)
    case Preparing => Some(2)
    case RiderAssigned => Some(3)
    case _ => None
  }

  /**
   * Every offered move other than Cancelled goes exactly one stage forward
   * along the partner's path, and Cancelled is offered only from Placed.
   */
  lemma OffersGoForward(s: OrderStatus, t: OrderStatus)
    requires t in Offered(s)
    ensures t == Cancelled ==> s == Placed
    ensures t != Cancelled ==> Stage(s).Some? && Stage(t).Some? && Stage(t).value == Stage(s).value + 1
  {
  }

  /** Moves are offered exactly from Placed, Confirmed and Preparing. */
  lemma OffersOnlyEarly(s: OrderStatus)
    ensures Offered(s) != [] <==> s == Placed || s == Confirmed || s == Preparing
    ensures s == Placed ==> Offered(s) == [Confirmed, Cancelled]
    ensures s == Confirmed ==> Offered(s) == [Preparing]
    ensures s == Preparing ==> Offered(s) == [RiderAssigned]
  {
  }

  /** An order offered a move is listed under the active tab. */
  lemma OfferedOrdersAreActive(orders: seq<Order>, o: Order)
    requires o in orders && Offered(o.status) != []
    ensures o in TabOrders(orders, ActiveTab)
  {
    TabOrdersExact(orders, ActiveTab, o);
  }
}
