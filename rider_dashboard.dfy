// The rider's dashboard (features/rider/RiderDashboard.tsx): which orders
// are delivery tasks, which one is shown, and the labels of its card.
module RiderDashboard {
  import opened Types
  import opened Lists
  import opened DataStore

  /** The statuses a rider picks up or drops off. */
  const TaskStatuses: seq<OrderStatus> := [RiderAssigned, Ready, PickedUp, OutForDelivery]

  function IsTask(o: Order): bool
  {
    o.status in TaskStatuses
  }

  function Tasks(orders: seq<Order>): seq<Order>
  {
    Filter(orders, IsTask)
  }

  /** `tasks[0]`: the card's order, if any. */
  function ActiveTask(orders: seq<Order>): Option<Order>
  {
    var tasks := Tasks(orders);
    if |tasks| > 0 then Some(tasks[0]) else None
  }

  /**
   * The card shows the first task in store order; without any task the
   * searching panel ('Finding Orders...') shows instead.
   */
  lemma ActiveTaskIsFirst(orders: seq<Order>)
    ensures ActiveTask(orders).None? <==> forall j :: 0 <= j < |orders| ==> !IsTask(orders[j])
    ensures ActiveTask(orders).Some? ==>
      exists k :: (0 <= k < |orders| && ActiveTask(orders).value == orders[k]
        && IsTask(orders[k]) && forall j :: 0 <= j < k ==> !IsTask(orders[j]))
  {
    FilterHeadIsFind(orders, IsTask);
    match FindFirst(orders, IsTask)
    case None =>
    case Some(k) =>
      assert ActiveTask(orders).value == orders[k];
  }

  /** The card's header. */
  function Header(o: Order): string
  {
    if o.status == PickedUp || o.status == OutForDelivery then "Dropoff" else "Pickup Task"
  }

  /** The card's button. */
  function NavigateLabel(o: Order): string
  {
    if o.status == OutForDelivery then "Navigate to Dropoff" else "Navigate to Pickup"
  }

  /** The card's restaurant line: the same fallback as the order notices. */
  function PickupName(o: Order): string
  {
    RestaurantLabel(o.items)
  }

  /**
   * The header says 'Dropoff' for Picked Up and Out for Delivery, and the
   * button sends the rider to the dropoff only for Out for Delivery: a
   * Picked Up task is headed 'Dropoff' yet navigates to the pickup.
   */
  lemma LabelsByStatus(o: Order)
    requires IsTask(o)
    ensures Header(o) == "Dropoff" <==> o.status == PickedUp || o.status == OutForDelivery
    ensures NavigateLabel(o) == "Navigate to Dropoff" <==> o.status == OutForDelivery
    ensures o.status == PickedUp ==> Header(o) == "Dropoff" && NavigateLabel(o) == "Navigate to Pickup"
  {
    assert "Pickup Task" != "Dropoff";
    assert "Navigate to Pickup" != "Navigate to Dropoff" by {
      assert "Navigate to Pickup"[12] != "Navigate to Dropoff"[12];
    }
  }
}
