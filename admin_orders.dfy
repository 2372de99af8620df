// The admin's global order table (features/admin/AdminOrdersPage.tsx): the
// status/dispute filter, the id search, the open-dispute counter and the
// Refund/Dismiss buttons.
module AdminOrders {
  import opened Types
  import opened Text
  import opened Lists
  import opened DataStore

  /** A dispute that is filed and not yet settled. */
  predicate OpenDispute(o: Order)
  {
    o.isDisputed && o.disputeStatus == Some(Open)
  }

  /** The filter select: 'All', 'Disputed', or a status name. */
  predicate MatchesFilter(o: Order, filter: string)
  {
    if filter == "All" then true
    else if filter == "Disputed" then OpenDispute(o)
    else StatusName(o.status) == filter
  }

  /** The id search, without regard to letter case. */
  predicate MatchesSearch(o: Order, search: string)
  {
    Contains(Lower(o.id), Lower(search))
  }

  function Keeps(filter: string, search: string): Order -> bool
  {
    (o: Order) => MatchesFilter(o, filter) && MatchesSearch(o, search)
  }

  /** The table's rows, in store order. */
  function ShownOrders(orders: seq<Order>, filter: string, search: string): seq<Order>
  {
    Filter(orders, Keeps(filter, search))
  }

  function IsOpenDispute(o: Order): bool
  {
    OpenDispute(o)
  }

  /** The 'Disputes (n)' counter. */
  function DisputedCount(orders: seq<Order>): nat
  {
    |Filter(orders, IsOpenDispute)|
  }

  /** 'All' with an empty search lists every order. */
  lemma AllShowsEverything(orders: seq<Order>)
    ensures ShownOrders(orders, "All", "") == orders
  {
    forall i | 0 <= i < |orders| ensures Keeps("All", "")(orders[i]) {
      ContainsEmpty(Lower(orders[i].id));
    }
    FilterAll(orders, Keeps("All", ""));
  }

  lemma {:induction false} FilterSame<T>(s: seq<T>, p: T -> bool, q: T -> bool)
    requires forall i :: 0 <= i < |s| ==> (p(s[i]) <==> q(s[i]))
    ensures Filter(s, p) == Filter(s, q)
  {
    if s != [] {
      FilterSame(s[1..], p, q);
    }
  }

  /**
   * With an empty search the 'Disputed' filter lists exactly the orders
   * the counter counts, so the counter is the number of rows it shows.
   */
  lemma DisputedFilterMatchesCounter(orders: seq<Order>)
    ensures ShownOrders(orders, "Disputed", "") == Filter(orders, IsOpenDispute)
    ensures |ShownOrders(orders, "Disputed", "")| == DisputedCount(orders)
  {
    assert "Disputed" != "All";
    forall i | 0 <= i < |orders| ensures Keeps("Disputed", "")(orders[i]) <==> IsOpenDispute(orders[i]) {
      ContainsEmpty(Lower(orders[i].id));
    }
    FilterSame(orders, Keeps("Disputed", ""), IsOpenDispute);
  }

  /** A listed row passes both the filter and the search; a row that passes both is listed. */
  lemma ShownExact(orders: seq<Order>, filter: string, search: string, o: Order)
    ensures o in ShownOrders(orders, filter, search) <==>
      o in orders && MatchesFilter(o, filter) && MatchesSearch(o, search)
  {
    if o in orders {
      var i :| 0 <= i < |orders| && orders[i] == o;
    }
  }

  /** The status filters of the select keep exactly the orders in that status. */
  lemma StatusFilter(o: Order, s: OrderStatus)
    requires s == Placed || s == Delivered || s == Cancelled
    ensures MatchesFilter(o, StatusName(s)) <==> o.status == s
  {
    assert StatusName(s) != "All" && StatusName(s) != "Disputed" by {
      assert StatusName(s)[0] == 'P' || |StatusName(s)| != |"Disputed"|;
    }
    match o.status {
      case Placed => assert |StatusName(o.status)| == 6;
      case Confirmed => assert StatusName(o.status)[0] == 'C';
      case Preparing => assert StatusName(o.status)[1] == 'r';
      case Ready => assert StatusName(o.status)[0] == 'R';
      case RiderAssigned => assert StatusName(o.status)[0] == 'R';
      case PickedUp => assert StatusName(o.status)[1] == 'i';
      case OutForDelivery => assert StatusName(o.status)[0] == 'O';
      case Delivered => assert StatusName(o.status)[2] == 'l';
      case Cancelled => assert |StatusName(o.status)| == 9;
    }
  }

  /** Refund and Dismiss are offered on exactly the open disputes. */
  predicate ResolveOffered(o: Order)
  {
    OpenDispute(o)
  }

  /**
   * Either button settles the dispute, after which the row offers neither
   * again: from this page a dispute is resolved at most once.
   */
  lemma ResolvedOnce(o: Order, resolution: DisputeStatus)
    requires ResolveOffered(o) && resolution != Open
    ensures !ResolveOffered(WithResolution(o, resolution))
  {
  }
}
