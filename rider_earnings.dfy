// The rider's earnings page (features/rider/RiderEarningsPage.tsx): pay per
// delivered order, the totals, the week chart and the recent list.
module RiderEarnings {
  import opened Types
  import opened Lists

  function DeliveredOrders(orders: seq<Order>): seq<Order>
  {
    Filter(orders, IsDelivered)
  }

  /** calculateEarnings: 3.50 base, 2 per line (not per unit), plus the tip. */
  function Earning(o: Order): real
  {
    3.5 + (|o.items| * 2) as real + o.tip
  }

  function Tip(o: Order): real
  {
    o.tip
  }

  function TotalEarnings(orders: seq<Order>): real
  {
    Sum(DeliveredOrders(orders), Earning)
  }

  function TotalTips(orders: seq<Order>): real
  {
    Sum(DeliveredOrders(orders), Tip)
  }

  lemma {:induction false} EarningsOverTips(s: seq<Order>)
    ensures Sum(s, Earning) >= Sum(s, Tip) + 3.5 * |s| as real
  {
    if s != [] {
      EarningsOverTips(s[1..]);
    }
  }

  /**
   * Only delivered orders count, and the total pays at least the tips plus
   * the 3.50 base for each delivered order.
   */
  lemma TotalsRelated(orders: seq<Order>)
    ensures TotalEarnings(orders) >= TotalTips(orders) + 3.5 * |DeliveredOrders(orders)| as real
    ensures forall i :: 0 <= i < |DeliveredOrders(orders)| ==> DeliveredOrders(orders)[i].status == Delivered
  {
    EarningsOverTips(DeliveredOrders(orders));
  }

  /** The share of the week's total drawn for each day, Monday to Sunday. */
  const DayWeights: seq<real> := [0.1, 0.15, 0.2, 0.1, 0.25, 0.1, 0.1]

  function WeeklyBars(total: real): (bars: seq<real>)
    ensures |bars| == 7
  {
    seq(7, i requires 0 <= i < 7 => total * DayWeights[i])
  }

  /** The weights add up to one, so the seven bars add up to the total. */
  lemma BarsAddUp(total: real)
    ensures var b := WeeklyBars(total);
      b[0] + b[1] + b[2] + b[3] + b[4] + b[5] + b[6] == total
  {
    var w := DayWeights;
    assert w[0] + w[1] + w[2] + w[3] + w[4] + w[5] + w[6] == 1.0;
    var b := WeeklyBars(total);
    assert b[0] + b[1] + b[2] + b[3] + b[4] + b[5] + b[6]
        == total * (w[0] + w[1] + w[2] + w[3] + w[4] + w[5] + w[6]);
  }

  /** One line of the recent list. */
  datatype Activity = Activity(id: string, kind: string, date: string, amount: real)

  function ActivityOf(o: Order): Activity
  {
    Activity(o.id, if o.tip != 0.0 then "Delivery + Tip" else "Delivery", o.date, Earning(o))
  }

  /** The first five delivered orders in store order (newest first, since the store prepends). */
  function Recent(orders: seq<Order>): (r: seq<Activity>)
    ensures |r| == if |DeliveredOrders(orders)| < 5 then |DeliveredOrders(orders)| else 5
    ensures forall i :: 0 <= i < |r| ==> r[i] == ActivityOf(DeliveredOrders(orders)[i])
  {
    var firsts := Take(DeliveredOrders(orders), 5);
    seq(|firsts|, i requires 0 <= i < |firsts| => ActivityOf(firsts[i]))
  }

  /** An entry is labelled with a tip exactly when the order carries one, and pays that order's earning. */
  lemma RecentLabels(orders: seq<Order>, i: nat)
    requires i < |Recent(orders)|
    ensures Recent(orders)[i].kind == "Delivery + Tip" <==> DeliveredOrders(orders)[i].tip != 0.0
    ensures Recent(orders)[i].amount == Earning(DeliveredOrders(orders)[i])
  {
    assert "Delivery" != "Delivery + Tip";
  }
}
