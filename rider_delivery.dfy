// The rider's delivery screen (features/rider/RiderDeliveryPage.tsx): a
// two-leg local state (`step`, `localStatus`) advanced by the action button
// and brought in line with the order's status when the order changes. The
// pickup press dispatches 'Picked Up' at once and 'Out for Delivery' one
// second later; here that delayed dispatch is its own method.
module RiderDelivery {
  import opened Types
  import opened Lists
  import opened MockApi
  import opened DataStore

  datatype Leg = PickupLeg | DropoffLeg

  /** The six local states the page's type allows; two are never entered. */
  datatype LocalStatus =
    | LocalAssigned | ArrivingPickup | ArrivedPickup | LocalPickedUp | ArrivingDropoff | LocalDelivered

  datatype View = View(step: Leg, local: LocalStatus)

  const Initial := View(PickupLeg, LocalAssigned)

  /** The sync effect for an order in the given status. */
  function Synced(v: View, status: OrderStatus): View
  {
    if status == OutForDelivery || status == PickedUp then View(DropoffLeg, ArrivingDropoff)
    else if status == Delivered then v.(local := LocalDelivered)
    else v
  }

  /** handleAction's new local state. */
  function Acted(v: View): View
  {
    if v.step == PickupLeg && v.local == LocalAssigned then v.(local := ArrivedPickup)
    else if v.step == PickupLeg && v.local == ArrivedPickup then View(DropoffLeg, ArrivingDropoff)
    else if v.step == DropoffLeg then v.(local := LocalDelivered)
    else v
  }

  /** The statuses handleAction dispatches at once. */
  function Dispatched(v: View): seq<OrderStatus>
  {
    if v.step == PickupLeg && v.local == ArrivedPickup then [PickedUp]
    else if v.step == DropoffLeg then [Delivered]
    else []
  }

  /** Whether handleAction schedules the delayed 'Out for Delivery'. */
  predicate SchedulesOutForDelivery(v: View)
  {
    v.step == PickupLeg && v.local == ArrivedPickup
  }

  function ButtonText(v: View): string
  {
    if v.step == PickupLeg then
      (if v.local == LocalAssigned then "Arrived at Restaurant" else "Confirm Pickup")
    else "Confirm Delivery"
  }

  /**
   * The first press only marks the arrival at the restaurant; the second
   * dispatches 'Picked Up', schedules 'Out for Delivery' and switches to
   * the dropoff leg; on the dropoff leg every press dispatches 'Delivered'.
   */
  lemma PressSequence(v: View)
    ensures v == Initial ==>
      (Dispatched(v) == [] && Acted(v) == View(PickupLeg, ArrivedPickup) && !SchedulesOutForDelivery(v))
    ensures v == View(PickupLeg, ArrivedPickup) ==>
      (Dispatched(v) == [PickedUp] && SchedulesOutForDelivery(v) && Acted(v) == View(DropoffLeg, ArrivingDropoff))
    ensures v.step == DropoffLeg ==>
      (Dispatched(v) == [Delivered] && Dispatched(Acted(v)) == [Delivered] && Acted(v).local == LocalDelivered)
  {
  }

  /** What can happen to the screen: a press, or the order arriving in a status. */
  datatype Event = Press | OrderIs(status: OrderStatus)

  function Step(v: View, e: Event): View
  {
    match e
    case Press => Acted(v)
    case OrderIs(s) => Synced(v, s)
  }

  function Run(v: View, events: seq<Event>): View
    decreases |events|
  {
    if events == [] then v else Run(Step(v, events[0]), events[1..])
  }

  /**
   * The states the screen can be in: on the dropoff leg the rider is on
   * the way or done, and 'arriving_pickup' and 'picked_up' never occur.
   */
  predicate Consistent(v: View)
  {
    (v.step == DropoffLeg ==> v.local == ArrivingDropoff || v.local == LocalDelivered)
    && v.local != ArrivingPickup && v.local != LocalPickedUp
  }

  /**
   * From any consistent state, whatever happens, the state stays
   * consistent, and once on the dropoff leg the screen never returns to
   * the pickup leg.
   */
  lemma {:induction false} RunStaysConsistent(v: View, events: seq<Event>)
    requires Consistent(v)
    ensures Consistent(Run(v, events))
    ensures v.step == DropoffLeg ==> Run(v, events).step == DropoffLeg
    decreases |events|
  {
    if events != [] {
      RunStaysConsistent(Step(v, events[0]), events[1..]);
    }
  }

  /** In every reachable state the button reads 'Confirm Delivery' exactly on the dropoff leg. */
  lemma ReachableButton(events: seq<Event>)
    ensures Consistent(Run(Initial, events))
    ensures ButtonText(Run(Initial, events)) == "Confirm Delivery" <==> Run(Initial, events).step == DropoffLeg
  {
    RunStaysConsistent(Initial, events);
  }

  /** The order's status in the store's copy is t (when the store holds the order). */
  predicate StatusIs(data: Data, id: string, t: OrderStatus)
  {
    var list := Read(data.orders);
    match FindFirst(list, OrderIdIs(id))
    case None => true
    case Some(k) => list[k].status == t
  }

  class DeliveryScreen {
    var view: View
    /** Set by the pickup press until the delayed 'Out for Delivery' fires. */
    var outForDeliveryDue: bool
    const orderId: string
    const store: DataStore

    constructor (orderId: string, store: DataStore)
      ensures this.orderId == orderId && this.store == store
      ensures view == Initial && !outForDeliveryDue
    {
      this.orderId := orderId;
      this.store := store;
      view := Initial;
      outForDeliveryDue := false;
    }

    /** The sync effect: run whenever the order in the store's copy changes. */
    method Sync()
      modifies this`view
      ensures match FindFirst(store.orders, OrderIdIs(orderId))
        case None => view == old(view)
        case Some(k) => view == Synced(old(view), store.orders[k].status)
    {
      match FindFirst(store.orders, OrderIdIs(orderId)) {
        case None =>
        case Some(k) =>
          view := Synced(view, store.orders[k].status);
      }
    }

    /** Dispatches a status through the shared store; a store failure is ignored, as the page does. */
    method Dispatch(t: OrderStatus)
      modifies store`orders, store`notifications, store.db`data, store.db`clock
      ensures FindFirst(Read(store.db.data.orders), OrderIdIs(orderId)).Some?
          == FindFirst(Read(old(store.db.data).orders), OrderIdIs(orderId)).Some?
      ensures StatusIs(store.db.data, orderId, t)
    {
      var list := Read(store.db.data.orders);
      var _ := store.UpdateOrderStatus(orderId, t);
      match FindFirst(list, OrderIdIs(orderId)) {
        case None =>
        case Some(k) =>
          FindFirstAfterWrite(list, OrderIdIs(orderId), k, list[k].(status := t));
      }
    }

    /**
     * handleAction. Without the order in the store's copy there is no
     * button and nothing happens. Otherwise the view advances as Acted
     * says, the statuses Dispatched names reach the store, and the pickup
     * press leaves 'Out for Delivery' due.
     */
    method HandleAction()
      modifies this`view, this`outForDeliveryDue
      modifies store`orders, store`notifications, store.db`data, store.db`clock
      ensures FindFirst(old(store.orders), OrderIdIs(orderId)).None? ==>
        view == old(view) && outForDeliveryDue == old(outForDeliveryDue)
        && store.db.data == old(store.db.data) && store.orders == old(store.orders)
      ensures FindFirst(old(store.orders), OrderIdIs(orderId)).Some? ==>
        view == Acted(old(view))
        && outForDeliveryDue == (old(outForDeliveryDue) || SchedulesOutForDelivery(old(view)))
        && (Dispatched(old(view)) == [] ==> store.db.data == old(store.db.data) && store.orders == old(store.orders))
        && (|Dispatched(old(view))| == 1 ==> StatusIs(store.db.data, orderId, Dispatched(old(view))[0]))
    {
      if FindFirst(store.orders, OrderIdIs(orderId)).None? {
        return;
      }
      var v := view;
      if v.step == PickupLeg && v.local == LocalAssigned {
        view := v.(local := ArrivedPickup);
      } else if v.step == PickupLeg && v.local == ArrivedPickup {
        Dispatch(PickedUp);
        outForDeliveryDue := true;
        view := View(DropoffLeg, ArrivingDropoff);
      } else if v.step == DropoffLeg {
        Dispatch(Delivered);
        view := v.(local := LocalDelivered);
      }
    }

    /** The one-second timer after the pickup press fires. */
    method OutForDeliveryTimer()
      modifies this`outForDeliveryDue
      modifies store`orders, store`notifications, store.db`data, store.db`clock
      ensures !outForDeliveryDue
      ensures !old(outForDeliveryDue) ==> store.db.data == old(store.db.data) && store.orders == old(store.orders)
      ensures old(outForDeliveryDue) ==> StatusIs(store.db.data, orderId, OutForDelivery)
    {
      if outForDeliveryDue {
        Dispatch(OutForDelivery);
        outForDeliveryDue := false;
      }
    }

    function Button(): string
      reads this`view
    {
      ButtonText(view)
    }
  }
}
