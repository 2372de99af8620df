// The customer's order tracking page (features/orders/OrderTrackingPage.tsx):
// the six-step timeline, where an order's status sits on it, the progress
// bar and which cards and actions are shown.
module Tracking {
  import opened Types
  import opened Lists
  import opened PartnerOrders
  import opened Kitchen

  /** The timeline's steps, in order. */
  const Timeline: seq<OrderStatus> := [Placed, Confirmed, Preparing, RiderAssigned, OutForDelivery, Delivered]

  /** getStepStatus: Ready shows as Preparing and Picked Up as Out for Delivery. */
  function StepStatus(s: OrderStatus): OrderStatus
  {
    if s == Ready then Preparing
    else if s == PickedUp then OutForDelivery
    else s
  }

  /** `findIndex`: the first position holding x, or -1. */
  function IndexOf(xs: seq<OrderStatus>, x: OrderStatus): (r: int)
    ensures -1 <= r < |xs|
    ensures r == -1 <==> x !in xs
    ensures r >= 0 ==> xs[r] == x && forall j :: 0 <= j < r ==> xs[j] != x
  {
    if xs == [] then -1
    else if xs[0] == x then 0
    else
      var k := IndexOf(xs[1..], x);
      if k == -1 then -1 else k + 1
  }

  /** currentStepIndex. */
  function StepIndex(s: OrderStatus): int
  {
    IndexOf(Timeline, StepStatus(s))
  }

  /** The status card's step: the current one, or the first when the index is -1. */
  function CurrentStep(s: OrderStatus): OrderStatus
  {
    var k := StepIndex(s);
    if k >= 0 then Timeline[k] else Timeline[0]
  }

  /** A step is drawn completed when it is at or before the current one. */
  predicate StepCompleted(idx: nat, s: OrderStatus)
  {
    idx <= StepIndex(s)
  }

  /**
   * Every status but Cancelled finds its step, the synonym's step for
   * Ready and Picked Up; Cancelled gets -1, so no step is completed and
   * the card shows the first step.
   */
  lemma StepIndexCases(s: OrderStatus)
    ensures s != Cancelled ==> 0 <= StepIndex(s) < |Timeline| && Timeline[StepIndex(s)] == StepStatus(s)
    ensures s == Cancelled ==> StepIndex(s) == -1 && CurrentStep(s) == Placed
    ensures s == Cancelled ==> forall idx: nat :: !StepCompleted(idx, s)
  {
  }

  /** The step index of every status, written out. */
  lemma StepIndexTable(s: OrderStatus)
    ensures StepIndex(s) == match s
      case Placed => 0
      case Confirmed => 1
      case Preparing => 2
      case Ready => 2
      case RiderAssigned => 3
      case PickedUp => 4
      case OutForDelivery => 4
      case Delivered => 5
      case Cancelled => -1
  {
    match s
    case Placed =>
    case Confirmed =>
    case Preparing =>
    case Ready =>
    case RiderAssigned =>
    case PickedUp =>
    case OutForDelivery =>
    case Delivered =>
    case Cancelled =>
  }

  /** Each timeline step's own index is its position. */
  lemma TimelineIndex(i: nat)
    requires i < |Timeline|
    ensures StepIndex(Timeline[i]) == i
  {
    var s := Timeline[i];
    if i == 0 { assert s == Placed; }
    else if i == 1 { assert s == Confirmed; }
    else if i == 2 { assert s == Preparing; }
    else if i == 3 { assert s == RiderAssigned; }
    else if i == 4 { assert s == OutForDelivery; }
    else { assert s == Delivered; }
    StepIndexTable(s);
  }

  /** Declaration order of the statuses (types.ts), without Cancelled. */
  function Ordinal(s: OrderStatus): nat
  {
    match s
    case Placed => 0
    case Confirmed => 1
    case Preparing => 2
    case Ready => 3
    case RiderAssigned => 4
    case PickedUp => 5
    case OutForDelivery => 6
    case Delivered => 7
    case Cancelled => 8
  }

  /** Along the order's life (everything but Cancelled) the step index never goes back. */
  lemma StepIndexMonotone(s: OrderStatus, t: OrderStatus)
    requires s != Cancelled && t != Cancelled && Ordinal(s) <= Ordinal(t)
    ensures StepIndex(s) <= StepIndex(t)
  {
    StepIndexTable(s);
    StepIndexTable(t);
  }

  /** The partner's statuses sit on the first four steps of the timeline. */
  lemma PartnerStepIndices()
    ensures StepIndex(Placed) == 0 && StepIndex(Confirmed) == 1
    ensures StepIndex(Preparing) == 2 && StepIndex(RiderAssigned) == 3
  {
    StepIndexTable(Placed);
    StepIndexTable(Confirmed);
    StepIndexTable(Preparing);
    StepIndexTable(RiderAssigned);
  }

  /** What each status offers the partner, written out. */
  lemma OfferedCases(s: OrderStatus)
    ensures Offered(s) == match s
      case Placed => [Confirmed, Cancelled]
      case Confirmed => [Preparing]
      case Preparing => [RiderAssigned]
      case _ => []
  {
  }

  /** Every move the partner pages offer, other than Cancel, advances the timeline by one step. */
  lemma PartnerMovesAdvance(s: OrderStatus, t: OrderStatus)
    requires t in Offered(s) && t != Cancelled
    ensures StepIndex(t) == StepIndex(s) + 1
  {
    OfferedCases(s);
    PartnerStepIndices();
    match s
    case Placed => assert t == Confirmed;
    case Confirmed => assert t == Preparing;
    case Preparing => assert t == RiderAssigned;
    case Ready => assert false;
    case RiderAssigned => assert false;
    case PickedUp => assert false;
    case OutForDelivery => assert false;
    case Delivered => assert false;
    case Cancelled => assert false;
  }

  /** So does every kitchen bump. */
  lemma BumpAdvances(o: Order)
    requires InKitchen(o)
    ensures StepIndex(Bump(o.status)) == StepIndex(o.status) + 1
  {
    StepIndexTable(o.status);
    StepIndexTable(Bump(o.status));
  }

  /** The bar shows while the order is neither Delivered nor Cancelled. */
  predicate ShowsProgress(s: OrderStatus)
  {
    s != Delivered && s != Cancelled
  }

  /** `((currentStepIndex + 1) / timeline.length) * 100`, in percent. */
  function ProgressWidth(s: OrderStatus): real
  {
    (StepIndex(s) + 1) as real / |Timeline| as real * 100.0
  }

  /** A shown bar is neither empty nor full, and grows with the step. */
  lemma ProgressBounds(s: OrderStatus, t: OrderStatus)
    requires ShowsProgress(s) && ShowsProgress(t)
    ensures 0.0 < ProgressWidth(s) < 100.0
    ensures Ordinal(s) <= Ordinal(t) ==> ProgressWidth(s) <= ProgressWidth(t)
  {
    StepIndexCases(s);
    StepIndexCases(t);
    if Ordinal(s) <= Ordinal(t) {
      StepIndexMonotone(s, t);
    }
  }

  /** The rider card: from the Rider Assigned step on, until Delivered. */
  predicate RiderCardShown(s: OrderStatus)
  {
    StepIndex(s) >= 3 && s != Delivered
  }

  lemma RiderCardCases(s: OrderStatus)
    ensures RiderCardShown(s) <==> s == RiderAssigned || s == PickedUp || s == OutForDelivery
  {
  }

  /** 'Leave Review' is offered on Delivered orders; the others get 'Need Help?'. */
  predicate ReviewOffered(s: OrderStatus)
  {
    s == Delivered
  }

  function IsKitItem(kits: seq<MealKit>): CartItem -> bool
  {
    (item: CartItem) => exists k :: 0 <= k < |kits| && kits[k].id == item.id
  }

  /** The order's lines that are meal kits. */
  function CookableItems(o: Order, kits: seq<MealKit>): seq<CartItem>
  {
    Filter(o.items, IsKitItem(kits))
  }

  /** The cook-mode card: a Delivered order with at least one meal-kit line. */
  predicate CookOffered(o: Order, kits: seq<MealKit>)
  {
    o.status == Delivered && |CookableItems(o, kits)| > 0
  }

  lemma CookOfferedIff(o: Order, kits: seq<MealKit>)
    ensures CookOffered(o, kits) <==>
      o.status == Delivered && exists i, k :: 0 <= i < |o.items| && 0 <= k < |kits| && kits[k].id == o.items[i].id
  {
    if o.status == Delivered {
      if exists i, k :: 0 <= i < |o.items| && 0 <= k < |kits| && kits[k].id == o.items[i].id {
        var i, k :| 0 <= i < |o.items| && 0 <= k < |kits| && kits[k].id == o.items[i].id;
        assert IsKitItem(kits)(o.items[i]);
        assert o.items[i] in CookableItems(o, kits);
      }
      if |CookableItems(o, kits)| > 0 {
        var c := CookableItems(o, kits)[0];
        assert c in o.items && IsKitItem(kits)(c);
        var i :| 0 <= i < |o.items| && o.items[i] == c;
      }
    }
  }
}
