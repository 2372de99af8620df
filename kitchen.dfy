// The kitchen display (features/partner/PartnerKDSPage.tsx): the ticket
// queue, the bump button and the New and Cooking counters.
module Kitchen {
  import opened Types
  import opened Lists
  import opened Sorting
  import opened PartnerOrders

  /** Tickets the kitchen works on: Confirmed (new) and Preparing (cooking). */
  function InKitchen(o: Order): bool
  {
    o.status == Confirmed || o.status == Preparing
  }

  /**
   * The queue: the kitchen's orders, oldest first. `time` stands for
   * `new Date(date).getTime()`; the sort is stable, as JavaScript's is.
   */
  function Queue(orders: seq<Order>, time: string -> real): seq<Order>
  {
    SortByKey(Filter(orders, InKitchen), (o: Order) => time(o.date))
  }

  /**
   * The queue holds exactly the Confirmed and Preparing orders, each as
   * often as in the store, in ascending date order.
   */
  lemma QueueExact(orders: seq<Order>, time: string -> real)
    ensures multiset(Queue(orders, time)) == multiset(Filter(orders, InKitchen))
    ensures SortedByKey(Queue(orders, time), (o: Order) => time(o.date))
    ensures forall o :: o in Queue(orders, time) <==> o in orders && InKitchen(o)
  {
    var key := (o: Order) => time(o.date);
    SortByKeyCorrect(Filter(orders, InKitchen), key);
    forall o ensures o in Queue(orders, time) <==> o in orders && InKitchen(o) {
      assert o in Queue(orders, time) <==> o in multiset(Queue(orders, time));
      assert o in Filter(orders, InKitchen) <==> o in multiset(Filter(orders, InKitchen));
      if o in orders && InKitchen(o) {
        var i :| 0 <= i < |orders| && orders[i] == o;
      }
    }
  }

  /** handleBump: Confirmed moves to Preparing, anything else to Rider Assigned. */
  function Bump(s: OrderStatus): OrderStatus
  {
    if s == Confirmed then Preparing else RiderAssigned
  }

  /**
   * Every ticket's bump is one of the moves the partner's order list
   * offers for the same status, and so goes one stage forward.
   */
  lemma BumpOffered(o: Order)
    requires InKitchen(o)
    ensures Bump(o.status) in Offered(o.status)
    ensures Stage(Bump(o.status)).Some? && Stage(o.status).Some?
      && Stage(Bump(o.status)).value == Stage(o.status).value + 1
  {
  }

  function IsNew(o: Order): bool
  {
    o.status == Confirmed
  }

  function IsCooking(o: Order): bool
  {
    o.status == Preparing
  }

  function NewCount(queue: seq<Order>): nat
  {
    |Filter(queue, IsNew)|
  }

  function CookingCount(queue: seq<Order>): nat
  {
    |Filter(queue, IsCooking)|
  }

  /** The New and Cooking counters split the queue: their sum is its length. */
  lemma CountersSplitQueue(orders: seq<Order>, time: string -> real)
    ensures NewCount(Queue(orders, time)) + CookingCount(Queue(orders, time)) == |Queue(orders, time)|
  {
    var q := Queue(orders, time);
    QueueExact(orders, time);
    forall i | 0 <= i < |q| ensures InKitchen(q[i]) {
      assert q[i] in q;
    }
    CountPartition(q, IsNew, IsCooking, InKitchen);
    FilterAll(q, InKitchen);
  }
}
