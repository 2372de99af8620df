// The shared data store (store/useDataStore.ts and its slices): a client
// copy of the collections, and actions that call the mock back end one
// awaited step at a time and then overwrite the copied fields with what
// they got back. A thrown store error ends the action at that step: what
// was already written stays written and the copy is not refreshed.
module DataStore {
  import opened Types
  import opened Text
  import opened Lists
  import opened MockApi
  import opened Reviews

  // ---- what the order actions build ----

  /** `items[0]?.restaurantName || 'Restaurant'`. */
  function RestaurantLabel(items: seq<CartItem>): string
  {
    if |items| > 0 && !Falsy(items[0].restaurantName) then items[0].restaurantName.value
    else "Restaurant"
  }

  /** The owner's notice after a status change (orderSlice.ts:15-20). */
  function OrderUpdateNotice(o: Order, status: OrderStatus): NotificationDraft
  {
    NotificationDraft(
      OrderUpdate,
      "Order Updated: " + StatusName(status),
      "Your order from " + RestaurantLabel(o.items) + " is now " + StatusName(status) + ".",
      Some(o.userId), None)
  }

  /** The partners' notice for a new order (orderSlice.ts:35-40). */
  function NewOrderNotice(o: Order): NotificationDraft
  {
    NotificationDraft(
      NewOrder,
      "New Order Received",
      "Order #" + IdSuffix(o.id) + " placed by " + o.customerName + ". Value: $" + Fixed(o.total, 2),
      None, Some(Partner))
  }

  /** The admins' notice for a new dispute (orderSlice.ts:68-73). */
  function DisputeFiledNotice(orderId: string, reason: string): NotificationDraft
  {
    NotificationDraft(
      DisputeUpdate, "New Dispute Filed",
      "Dispute on Order #" + IdSuffix(orderId) + ": " + reason,
      None, Some(Admin))
  }

  /** The owner's notice for a resolved dispute (orderSlice.ts:95-100). */
  function DisputeResolvedNotice(orderId: string, userId: string, resolution: DisputeStatus): NotificationDraft
  {
    NotificationDraft(
      DisputeUpdate, "Dispute Resolved",
      "Your dispute for Order #" + IdSuffix(orderId) + " has been " + DisputeName(resolution) + ".",
      Some(userId), None)
  }

  /** `Math.floor(order.total * 10)`. */
  function PointsAwarded(total: real): int
  {
    (total * 10.0).Floor
  }

  /** For a non-negative total the award is the whole part of ten points per unit. */
  lemma PointsAwardedBounds(total: real)
    requires total >= 0.0
    ensures 0 <= PointsAwarded(total) && PointsAwarded(total) as real <= total * 10.0 < PointsAwarded(total) as real + 1.0
  {
  }

  /** `{ ...order, isDisputed: true, disputeReason: reason, disputeStatus: 'Open' }`. */
  function Disputed(o: Order, reason: string): Order
  {
    o.(isDisputed := true, disputeReason := Some(reason), disputeStatus := Some(Open))
  }

  /** `{ ...order, disputeStatus: resolution, status: Refunded ? 'Cancelled' : status }`. */
  function WithResolution(o: Order, resolution: DisputeStatus): (r: Order)
    ensures r.disputeStatus == Some(resolution)
    ensures r.status == Cancelled <==> resolution == Refunded || o.status == Cancelled
    ensures resolution != Refunded ==> r.status == o.status
    ensures r.(disputeStatus := o.disputeStatus, status := o.status) == o
  {
    o.(disputeStatus := Some(resolution), status := if resolution == Refunded then Cancelled else o.status)
  }

  function RefundTx(o: Order, id: string, date: string): Transaction
  {
    Transaction(id, Credit, o.total, date, "Refund: Order #" + IdSuffix(o.id))
  }

  /** The fields resolveDispute writes for a refund, computed from the client's copy of the user. */
  function RefundFields(u: User, o: Order, tx: Transaction): UserFields
  {
    NoFields.(walletBalance := Some(u.walletBalance + o.total), transactions := Some([tx] + u.transactions))
  }

  /** `status === 'Active' ? 'Suspended' : 'Active'`. */
  function ToggledStatus(s: Option<UserStatus>): UserStatus
  {
    if s == Some(UserStatus.Active) then UserStatus.Suspended else UserStatus.Active
  }

  function ReviewTargetIs(targetId: string): Review -> bool
  {
    (r: Review) => r.targetId == targetId
  }

  /** The restaurant list after a review for targetId: that restaurant's rating and count recomputed. */
  function Rerate(restaurants: seq<Restaurant>, reviews: seq<Review>, targetId: string): seq<Restaurant>
  {
    var mine := Filter(reviews, ReviewTargetIs(targetId));
    seq(|restaurants|, i requires 0 <= i < |restaurants| =>
      if restaurants[i].id == targetId
      then restaurants[i].(rating := MeanRating(mine), reviewCount := |mine|)
      else restaurants[i])
  }

  /** The owner's notice names the order's restaurant and the new status. */
  lemma OrderUpdateNoticeNames(o: Order, status: OrderStatus)
    ensures var d := OrderUpdateNotice(o, status);
      d.targetUserId == Some(o.userId) && d.targetRole == None
      && Contains(d.message, RestaurantLabel(o.items)) && Contains(d.message, StatusName(status))
      && Contains(d.title, StatusName(status))
  {
    var place, name := RestaurantLabel(o.items), StatusName(status);
    ContainsMiddle("Your order from ", place, " is now " + name + ".");
    assert "Your order from " + place + (" is now " + name + ".")
        == "Your order from " + place + " is now " + name + ".";
    ContainsMiddle("Your order from " + place + " is now ", name, ".");
    ContainsMiddle("Order Updated: ", name, "");
    assert "Order Updated: " + name + "" == "Order Updated: " + name;
  }

  /** The new-order notice goes to every partner and names the customer and the amount. */
  lemma NewOrderNoticeNames(o: Order)
    ensures var d := NewOrderNotice(o);
      d.targetRole == Some(Partner) && d.targetUserId == None
      && Contains(d.message, o.customerName) && Contains(d.message, Fixed(o.total, 2))
  {
    var head := "Order #" + IdSuffix(o.id) + " placed by ";
    ContainsMiddle(head, o.customerName, ". Value: $" + Fixed(o.total, 2));
    assert head + o.customerName + (". Value: $" + Fixed(o.total, 2))
        == head + o.customerName + ". Value: $" + Fixed(o.total, 2);
    ContainsMiddle(head + o.customerName + ". Value: $", Fixed(o.total, 2), "");
    assert head + o.customerName + ". Value: $" + Fixed(o.total, 2) + ""
        == head + o.customerName + ". Value: $" + Fixed(o.total, 2);
  }

  /** The dispute notices name the resolution and the reason. */
  lemma DisputeNoticesName(orderId: string, userId: string, reason: string, resolution: DisputeStatus)
    ensures var filed := DisputeFiledNotice(orderId, reason);
      filed.targetRole == Some(Admin) && filed.targetUserId == None && Contains(filed.message, reason)
    ensures var done := DisputeResolvedNotice(orderId, userId, resolution);
      done.targetUserId == Some(userId) && done.targetRole == None
      && Contains(done.message, DisputeName(resolution))
  {
    ContainsMiddle("Dispute on Order #" + IdSuffix(orderId) + ": ", reason, "");
    assert "Dispute on Order #" + IdSuffix(orderId) + ": " + reason + ""
        == "Dispute on Order #" + IdSuffix(orderId) + ": " + reason;
    ContainsMiddle("Your dispute for Order #" + IdSuffix(orderId) + " has been ", DisputeName(resolution), ".");
  }

  /**
   * A refund puts a credit for the order total at the head of the log and
   * moves the balance by exactly that transaction's signed amount.
   */
  lemma RefundCredits(u: User, o: Order, id: string, date: string)
    ensures var tx := RefundTx(o, id, date);
      var v := MergeUser(u, RefundFields(u, o, tx));
      v.transactions == [tx] + u.transactions
      && v.walletBalance == u.walletBalance + Signed(v.transactions[0])
      && v.(walletBalance := u.walletBalance, transactions := u.transactions) == u
  {
  }

  /** Nothing stops a second refund: two refunds of one order credit its total twice. */
  lemma RefundTwice(u: User, o: Order, tx1: Transaction, tx2: Transaction)
    ensures var v := MergeUser(u, RefundFields(u, o, tx1));
      var w := MergeUser(v, RefundFields(v, o, tx2));
      w.walletBalance == u.walletBalance + 2.0 * o.total
      && w.transactions == [tx2, tx1] + u.transactions
  {
  }

  /** Toggling twice gives back a set status; an absent status becomes Active. */
  lemma ToggleTwice(s: UserStatus)
    ensures ToggledStatus(Some(ToggledStatus(Some(s)))) == s
    ensures ToggledStatus(Some(s)) != s
    ensures ToggledStatus(None) == UserStatus.Active
  {
  }

  /** Every restaurant rated from 0 to 5, with 0 meaning "no reviews yet". */
  predicate RatingsInRange(restaurants: seq<Restaurant>)
  {
    forall i :: 0 <= i < |restaurants| ==> 0.0 <= restaurants[i].rating <= 5.0
  }

  /**
   * Re-rating after a review keeps every rating between 0 and 5 when all
   * reviews carry 1 to 5 stars, leaves other restaurants as they were, and
   * gives the target the count of its reviews.
   */
  lemma RerateKeepsRatings(restaurants: seq<Restaurant>, reviews: seq<Review>, targetId: string)
    requires RatingsInRange(restaurants)
    requires RatedBetween(reviews, 1, 5)
    ensures var after := Rerate(restaurants, reviews, targetId);
      RatingsInRange(after) && |after| == |restaurants|
      && (forall i :: 0 <= i < |after| && restaurants[i].id != targetId ==> after[i] == restaurants[i])
      && (forall i :: 0 <= i < |after| && restaurants[i].id == targetId ==>
            after[i].reviewCount == Count(reviews, ReviewTargetIs(targetId)))
  {
    var mine := Filter(reviews, ReviewTargetIs(targetId));
    if |mine| > 0 {
      MeanRatingBetween(mine, 1, 5);
    }
  }

  /**
   * When the target's reviews all lie between lo and hi stars, so does its
   * recomputed rating: between the smallest and the largest of them.
   */
  lemma RerateBetween(restaurants: seq<Restaurant>, reviews: seq<Review>, targetId: string, lo: int, hi: int)
    requires Count(reviews, ReviewTargetIs(targetId)) > 0
    requires RatedBetween(Filter(reviews, ReviewTargetIs(targetId)), lo, hi)
    ensures var after := Rerate(restaurants, reviews, targetId);
      forall i :: 0 <= i < |after| && restaurants[i].id == targetId ==>
        lo as real <= after[i].rating <= hi as real
  {
    MeanRatingBetween(Filter(reviews, ReviewTargetIs(targetId)), lo, hi);
  }

  // ---- the store ----

  class DataStore {
    var restaurants: seq<Restaurant>
    var reviews: seq<Review>
    var orders: seq<Order>
    var users: seq<User>
    var notifications: seq<Notification>
    var chats: seq<ChatMessage>
    /** Stands for `Date.now()` in the refund transaction ids. */
    var clock: nat
    const db: MockDatabase

    constructor (db: MockDatabase)
      ensures this.db == db
      ensures restaurants == [] && reviews == [] && orders == [] && users == []
      ensures notifications == [] && chats == [] && clock == 0
    {
      this.db := db;
      restaurants, reviews, orders, users := [], [], [], [];
      notifications, chats := [], [];
      clock := 0;
    }

    /**
     * updateOrderStatus: persist the new status (failing with 'Order not
     * found' before anything else happens), then notify the owner, then
     * refresh the notifications and replace the order in the copy.
     */
    method UpdateOrderStatus(orderId: string, status: OrderStatus) returns (r: Result<()>)
      modifies this`orders, this`notifications, db`data, db`clock
      ensures var list := Read(old(db.data).orders);
        match FindFirst(list, OrderIdIs(orderId))
        case None =>
          r == Err(OrderNotFound) && db.data == old(db.data) && db.clock == old(db.clock)
          && orders == old(orders) && notifications == old(notifications)
        case Some(k) =>
          var o := list[k].(status := status);
          var n := StampNotification(OrderUpdateNotice(o, status), FreshId("n-", old(db.clock)));
          r == Ok(())
          && db.data == old(db.data).(orders := Some(list[k := o]),
                                      notifications := Some([n] + Read(old(db.data).notifications)))
          && db.clock == old(db.clock) + 1
          && orders == ReplaceWhere(old(orders), OrderIdIs(orderId), o)
          && notifications == Read(db.data.notifications)
    {
      var updated := db.UpdateOrderStatus(orderId, status);
      if updated.Err? {
        return Err(updated.error);
      }
      var _ := db.CreateNotification(OrderUpdateNotice(updated.value, status));
      notifications := db.AllNotifications();
      orders := ReplaceWhere(orders, OrderIdIs(orderId), updated.value);
      r := Ok(());
    }

    /** The store after addOrder's two writes: the order and the partners' notice, both at the front. */
    static function OrderPlaced(d: Data, order: Order, clock: nat): Data
    {
      d.(orders := Some([order] + Read(d.orders)),
         notifications := Some([StampNotification(NewOrderNotice(order), FreshId("n-", clock))] + Read(d.notifications)))
    }

    /**
     * addOrder: put the order at the front, notify the partners, credit
     * floor(total*10) points to the owner when the copy knows the owner,
     * then refresh orders, notifications and users from the store.
     */
    method AddOrder(order: Order) returns (r: Result<()>)
      modifies this`orders, this`notifications, this`users, db`data, db`clock
      ensures db.data.orders == Some([order] + Read(old(db.data).orders))
      ensures db.data.notifications == OrderPlaced(old(db.data), order, old(db.clock)).notifications
      ensures var placed := OrderPlaced(old(db.data), order, old(db.clock));
        var stored := Read(old(db.data).users);
        db.clock == old(db.clock) + 1
        && match FindFirst(old(users), UserIdIs(order.userId))
           case None =>
             r == Ok(()) && db.data == placed
             && orders == Read(db.data.orders) && notifications == Read(db.data.notifications)
             && users == Read(db.data.users)
           case Some(k) =>
             var fields := NoFields.(loyaltyPoints := Some(old(users)[k].loyaltyPoints + PointsAwarded(order.total)));
             match FindFirst(stored, UserIdIs(order.userId))
             case None =>
               r == Err(UserNotFound) && db.data == placed
               && orders == old(orders) && notifications == old(notifications) && users == old(users)
             case Some(j) =>
               r == Ok(())
               && db.data == placed.(users := Some(ReplaceWhere(stored, UserIdIs(order.userId), MergeUser(stored[j], fields))))
               && orders == Read(db.data.orders) && notifications == Read(db.data.notifications)
               && users == Read(db.data.users)
    {
      var _ := db.CreateOrder(order);
      var _ := db.CreateNotification(NewOrderNotice(order));
      assert db.data == OrderPlaced(old(db.data), order, old(db.clock));
      r := CreditOwner(order);
      if r.Err? {
        return;
      }
      orders := db.AllOrders();
      notifications := db.AllNotifications();
      users := db.AllUsers();
    }

    /**
     * addOrder's loyalty step: when the copy knows the owner, the store's
     * owner gets the copy's points plus floor(total*10); the store's
     * 'User not found' is passed on with nothing changed.
     */
    method CreditOwner(order: Order) returns (r: Result<()>)
      modifies db`data
      ensures db.data.orders == old(db.data).orders && db.data.notifications == old(db.data).notifications
      ensures var stored := Read(old(db.data).users);
        match FindFirst(users, UserIdIs(order.userId))
        case None => r == Ok(()) && db.data == old(db.data)
        case Some(k) =>
          var fields := NoFields.(loyaltyPoints := Some(users[k].loyaltyPoints + PointsAwarded(order.total)));
          match FindFirst(stored, UserIdIs(order.userId))
          case None => r == Err(UserNotFound) && db.data == old(db.data)
          case Some(j) =>
            r == Ok(()) && db.data == old(db.data).(users := Some(ReplaceWhere(stored, UserIdIs(order.userId), MergeUser(stored[j], fields))))
    {
      var owner := FindFirst(users, UserIdIs(order.userId));
      if owner.None? {
        return Ok(());
      }
      var points := users[owner.value].loyaltyPoints + PointsAwarded(order.total);
      var res := db.UpdateUser(order.userId, NoFields.(loyaltyPoints := Some(points)));
      r := if res.Err? then Err(res.error) else Ok(());
    }

    /**
     * fileDispute: nothing happens for an order the copy does not hold;
     * otherwise the order is marked as disputed (Open) in the store, the
     * admins are notified, and orders and notifications are refreshed.
     */
    method FileDispute(orderId: string, reason: string)
      modifies this`orders, this`notifications, db`data, db`clock
      ensures match FindFirst(old(orders), OrderIdIs(orderId))
        case None =>
          db.data == old(db.data) && db.clock == old(db.clock)
          && orders == old(orders) && notifications == old(notifications)
        case Some(k) =>
          var n := StampNotification(DisputeFiledNotice(orderId, reason), FreshId("n-", old(db.clock)));
          db.data == old(db.data).(
            orders := Some(ReplaceWhere(Read(old(db.data).orders), OrderIdIs(orderId), Disputed(old(orders)[k], reason))),
            notifications := Some([n] + Read(old(db.data).notifications)))
          && db.clock == old(db.clock) + 1
          && orders == Read(db.data.orders) && notifications == Read(db.data.notifications)
    {
      var found := FindFirst(orders, OrderIdIs(orderId));
      if found.None? {
        return;
      }
      var updated := Disputed(orders[found.value], reason);
      var _ := db.UpdateOrder(updated);
      var _ := db.CreateNotification(DisputeFiledNotice(orderId, reason));
      orders := db.AllOrders();
      notifications := db.AllNotifications();
    }

    /**
     * resolveDispute: nothing happens for an order the copy does not hold;
     * otherwise the store's order gets the resolution (and status Cancelled
     * when Refunded), the owner is notified, and only then, for a refund of
     * an owner the copy knows, the owner's wallet is credited with the
     * order total and a credit transaction is put at the front of the log.
     * Nothing prevents a second refund of the same order.
     */
    method ResolveDispute(orderId: string, resolution: DisputeStatus, today: string) returns (r: Result<()>)
      modifies this`orders, this`notifications, this`users, this`clock, db`data, db`clock
      ensures match FindFirst(old(orders), OrderIdIs(orderId))
        case None =>
          r == Ok(()) && db.data == old(db.data) && db.clock == old(db.clock) && clock == old(clock)
          && orders == old(orders) && notifications == old(notifications) && users == old(users)
        case Some(k) =>
          var o := old(orders)[k];
          var n := StampNotification(DisputeResolvedNotice(orderId, o.userId, resolution), FreshId("n-", old(db.clock)));
          var noticed := old(db.data).(
            orders := Some(ReplaceWhere(Read(old(db.data).orders), OrderIdIs(orderId), WithResolution(o, resolution))),
            notifications := Some([n] + Read(old(db.data).notifications)));
          var stored := Read(old(db.data).users);
          var owner := FindFirst(old(users), UserIdIs(o.userId));
          db.clock == old(db.clock) + 1
          && if resolution != Refunded || owner.None? then
               r == Ok(()) && db.data == noticed && clock == old(clock)
               && orders == Read(db.data.orders) && notifications == Read(db.data.notifications)
               && users == Read(db.data.users)
             else
               var u := old(users)[owner.value];
               var tx := RefundTx(o, FreshId("tx-ref-", old(clock)), today);
               clock == old(clock) + 1
               && match FindFirst(stored, UserIdIs(u.id))
                  case None =>
                    r == Err(UserNotFound) && db.data == noticed
                    && orders == old(orders) && notifications == old(notifications) && users == old(users)
                  case Some(j) =>
                    r == Ok(())
                    && db.data == noticed.(users := Some(ReplaceWhere(stored, UserIdIs(u.id), MergeUser(stored[j], RefundFields(u, o, tx)))))
                    && orders == Read(db.data.orders) && notifications == Read(db.data.notifications)
                    && users == Read(db.data.users)
    {
      var found := FindFirst(orders, OrderIdIs(orderId));
      if found.None? {
        return Ok(());
      }
      var o := orders[found.value];
      var _ := db.UpdateOrder(WithResolution(o, resolution));
      var _ := db.CreateNotification(DisputeResolvedNotice(orderId, o.userId, resolution));
      if resolution == Refunded {
        var owner := FindFirst(users, UserIdIs(o.userId));
        if owner.Some? {
          var u := users[owner.value];
          var tx := RefundTx(o, FreshId("tx-ref-", clock), today);
          clock := clock + 1;
          var res := db.UpdateUser(u.id, RefundFields(u, o, tx));
          if res.Err? {
            return Err(res.error);
          }
        }
      }
      orders := db.AllOrders();
      notifications := db.AllNotifications();
      users := db.AllUsers();
      r := Ok(());
    }

    /** addRestaurant: the store's new record (fresh id, Pending) goes to the front of the copy. */
    method AddRestaurant(rest: Restaurant)
      modifies this`restaurants, db`data, db`clock
      ensures var created := rest.(id := FreshId("r-", old(db.clock)), status := Some(RestaurantStatus.Pending));
        db.data == old(db.data).(restaurants := Some([created] + Read(old(db.data).restaurants)))
        && db.clock == old(db.clock) + 1
        && restaurants == [created] + old(restaurants)
    {
      var created := db.CreateRestaurant(rest);
      restaurants := [created] + restaurants;
    }

    /** updateRestaurant: every entry with that id is replaced, in the store and in the copy. */
    method UpdateRestaurant(rest: Restaurant)
      modifies this`restaurants, db`data
      ensures db.data == old(db.data).(restaurants := Some(ReplaceWhere(Read(old(db.data).restaurants), RestaurantIdIs(rest.id), rest)))
      ensures restaurants == ReplaceWhere(old(restaurants), RestaurantIdIs(rest.id), rest)
    {
      var updated := db.UpdateRestaurant(rest);
      restaurants := ReplaceWhere(restaurants, RestaurantIdIs(updated.id), updated);
    }

    /** deleteRestaurant: every entry with that id is removed, in the store and in the copy. */
    method DeleteRestaurant(id: string)
      modifies this`restaurants, db`data
      ensures db.data == old(db.data).(restaurants := Some(Filter(Read(old(db.data).restaurants), RestaurantIdIsNot(id))))
      ensures restaurants == Filter(old(restaurants), RestaurantIdIsNot(id))
    {
      db.DeleteRestaurant(id);
      restaurants := Filter(restaurants, RestaurantIdIsNot(id));
    }

    /** setRestaurantStatus: the store's updated record replaces the copy's entries with that id. */
    method SetRestaurantStatus(id: string, status: RestaurantStatus) returns (r: Result<()>)
      modifies this`restaurants, db`data
      ensures var list := Read(old(db.data).restaurants);
        match FindFirst(list, RestaurantIdIs(id))
        case None => r == Err(RestaurantNotFound) && db.data == old(db.data) && restaurants == old(restaurants)
        case Some(k) =>
          var updated := list[k].(status := Some(status));
          r == Ok(())
          && db.data == old(db.data).(restaurants := Some(list[k := updated]))
          && restaurants == ReplaceWhere(old(restaurants), RestaurantIdIs(id), updated)
    {
      var res := db.UpdateRestaurantStatus(id, status);
      if res.Err? {
        return Err(res.error);
      }
      restaurants := ReplaceWhere(restaurants, RestaurantIdIs(id), res.value);
      r := Ok(());
    }

    /** updateMenu: the store's updated record replaces the copy's entries with that id. */
    method UpdateMenu(id: string, menu: seq<MenuItem>) returns (r: Result<()>)
      modifies this`restaurants, db`data
      ensures var list := Read(old(db.data).restaurants);
        match FindFirst(list, RestaurantIdIs(id))
        case None => r == Err(RestaurantNotFound) && db.data == old(db.data) && restaurants == old(restaurants)
        case Some(k) =>
          var updated := list[k].(menu := Some(menu));
          r == Ok(())
          && db.data == old(db.data).(restaurants := Some(list[k := updated]))
          && restaurants == ReplaceWhere(old(restaurants), RestaurantIdIs(id), updated)
    {
      var res := db.UpdateRestaurantMenu(id, menu);
      if res.Err? {
        return Err(res.error);
      }
      restaurants := ReplaceWhere(restaurants, RestaurantIdIs(id), res.value);
      r := Ok(());
    }

    /**
     * addReview: the review goes to the front of the store's and the copy's
     * lists; if the copy holds a restaurant with the review's target id, that
     * restaurant's rating and count are recomputed from the copy's reviews.
     */
    method AddReview(rv: Review)
      modifies this`reviews, this`restaurants, db`data
      ensures db.data == old(db.data).(reviews := Some([rv] + Read(old(db.data).reviews)))
      ensures reviews == [rv] + old(reviews)
      ensures restaurants ==
        if FindFirst(old(restaurants), RestaurantIdIs(rv.targetId)).Some?
        then Rerate(old(restaurants), reviews, rv.targetId)
        else old(restaurants)
    {
      var created := db.CreateReview(rv);
      reviews := [created] + reviews;
      if FindFirst(restaurants, RestaurantIdIs(rv.targetId)).Some? {
        restaurants := Rerate(restaurants, reviews, rv.targetId);
      }
    }

    /**
     * toggleUserStatus: nothing happens for a user the copy does not hold;
     * otherwise 'Active' becomes 'Suspended' and anything else 'Active', in
     * the store and then in the copy.
     */
    method ToggleUserStatus(userId: string) returns (r: Result<()>)
      modifies this`users, db`data
      ensures match FindFirst(old(users), UserIdIs(userId))
        case None => r == Ok(()) && db.data == old(db.data) && users == old(users)
        case Some(k) =>
          var fields := NoFields.(status := Some(ToggledStatus(old(users)[k].status)));
          var stored := Read(old(db.data).users);
          match FindFirst(stored, UserIdIs(userId))
          case None => r == Err(UserNotFound) && db.data == old(db.data) && users == old(users)
          case Some(j) =>
            var updated := MergeUser(stored[j], fields);
            r == Ok(())
            && db.data == old(db.data).(users := Some(ReplaceWhere(stored, UserIdIs(userId), updated)))
            && users == ReplaceWhere(old(users), UserIdIs(userId), updated)
    {
      var found := FindFirst(users, UserIdIs(userId));
      if found.None? {
        return Ok(());
      }
      var fields := NoFields.(status := Some(ToggledStatus(users[found.value].status)));
      var res := db.UpdateUser(userId, fields);
      if res.Err? {
        return Err(res.error);
      }
      users := ReplaceWhere(users, UserIdIs(userId), res.value);
      r := Ok(());
    }

    /** updateUser: the store merges the fields; the merged user replaces the copy's entries with that id. */
    method UpdateUser(userId: string, fields: UserFields) returns (r: Result<()>)
      modifies this`users, db`data
      ensures var stored := Read(old(db.data).users);
        match FindFirst(stored, UserIdIs(userId))
        case None => r == Err(UserNotFound) && db.data == old(db.data) && users == old(users)
        case Some(j) =>
          var updated := MergeUser(stored[j], fields);
          r == Ok(())
          && db.data == old(db.data).(users := Some(ReplaceWhere(stored, UserIdIs(userId), updated)))
          && users == ReplaceWhere(old(users), UserIdIs(userId), updated)
    {
      var res := db.UpdateUser(userId, fields);
      if res.Err? {
        return Err(res.error);
      }
      users := ReplaceWhere(users, UserIdIs(userId), res.value);
      r := Ok(());
    }

    /** addNotification: the stamped notification goes to the front of the copy. */
    method AddNotification(d: NotificationDraft)
      modifies this`notifications, db`data, db`clock
      ensures var n := StampNotification(d, FreshId("n-", old(db.clock)));
        db.data == old(db.data).(notifications := Some([n] + Read(old(db.data).notifications)))
        && db.clock == old(db.clock) + 1
        && notifications == [n] + old(notifications)
    {
      var n := db.CreateNotification(d);
      notifications := [n] + notifications;
    }

    /** markNotificationsAsRead: the store marks, and the copy becomes the store's list. */
    method MarkNotificationsAsRead(userId: string)
      modifies this`notifications, db`data
      ensures db.data == old(db.data).(notifications := Some(MarkRead(Read(old(db.data).notifications), userId)))
      ensures notifications == MarkRead(Read(old(db.data).notifications), userId)
    {
      db.MarkAsRead(userId);
      notifications := db.AllNotifications();
    }

    /** sendMessage: the stamped message goes to the end of the copy; nothing before it moves. */
    method SendMessage(d: ChatDraft, timestamp: string)
      modifies this`chats, db`data, db`clock
      ensures var m := StampMessage(d, FreshId("msg-", old(db.clock)), timestamp);
        db.data == old(db.data).(chats := Some(Read(old(db.data).chats) + [m]))
        && db.clock == old(db.clock) + 1
        && chats == old(chats) + [m]
    {
      var m := db.SendChat(d, timestamp);
      chats := chats + [m];
    }
  }
}
