# to-eat: a verified model of the order, session and page logic

to-eat is a single-page food-delivery app. Customers browse restaurants and
meal kits, fill a cart, check out, track their order and file disputes.
Partners run the kitchen. Riders pick up and deliver. Admins approve
restaurants and settle disputes. There is no server. A mock API
(`services/api/mock.ts`) keeps every collection in one in-memory database.
Two stores sit on top of it:

- the shared data store (`store/useDataStore.ts` and its slices) for
  orders, restaurants, users, reviews, notifications and chats;
- the session store (`store/useStore.ts`) for the signed-in user, the cart,
  the favourites and the wallet.

This project models the following in Dafny:

- the mock database;
- both stores;
- the pages whose rules decide what happens to an order, a dispute, a
  notification or a wallet: checkout, the partner order list and kitchen
  display, the rider dashboard and delivery screen, order tracking, the
  admin order, ledger and restaurant pages, the profile page, the
  notification badge and list, reviews, finance, earnings, the feed and its
  filter dialog, global search, the product and editor dialogs, cook mode,
  the restaurant page and the route guard.

How each part is modelled:

- A store or a page whose handlers change state step by step is a `class`.
  Its fields are the state, and each handler is a `method`. The method's
  contract gives the new state in terms of the old one:
  - `MockApi.MockDatabase`, `DataStore.DataStore`, `Session.SessionStore`;
  - `Checkout.CheckoutPage`, `RiderDelivery.DeliveryScreen`,
    `Profile.ProfilePage`, `ProductModal.ProductDialog`,
    `CookMode.CookScreen`, `MenuEditor.MenuEditorDialog`.
- A page that only filters, counts or maps is a set of functions, with
  lemmas that state what the page promises.
- Each `await`ed call into the mock database is one atomic step, taken in
  the order the source takes it.
- `Date.now()` and generated ids come from a counter in the object that
  makes them.
- Random numbers and the timer callbacks are parameters or separate
  methods.

Money is an exact `real`. `Math.floor` is `.Floor`, and `toFixed` is
round-half-up on that exact value.

One module per source file, plus shared modules:

- `Types` holds the records of `types.ts`.
- `Lists` holds filter, find, replace, count and sum over sequences.
- `Sorting` holds the default string sort and the sort by a numeric key.
- `Text` holds lower-casing, trimming, substring search, split and join,
  number text and `toFixed` rounding.

## Model

| member | source | states |
|---|---|---|
| MockApi.ReadWrite | services/api/mock.ts:50-59 | a collection written with a list reads back that list; a collection never written reads as [] |
| MockApi.LoginIn | services/api/mock.ts:71-86 | login returns the first user whose email matches ignoring case; it fails with 'Invalid credentials' exactly when no email matches, and with 'Account suspended' exactly when that first match is Suspended; the password is never looked at |
| MockApi.NewUserDefaults | services/api/mock.ts:94-109 | a registered user starts with wallet 0, no points, no transactions, no addresses and status Active unless the caller's fields override them; the email is always the caller's |
| MockApi.MarkReadEffect | services/api/mock.ts:214-218 | markAsRead(u) sets read on exactly the notifications aimed at u or at no user, and changes no other field and no other notification |
| MockApi.MarkReadIdempotent | services/api/mock.ts:214-218 | marking as read twice for the same user gives what marking once gives |
| MockApi.MarkReadMarksRoleBroadcasts | services/api/mock.ts:216 | a notification aimed at a role but at no user is marked read by any user, whatever the role |
| MockApi.MockDatabase.constructor | services/api/mock.ts:32-44 | a fresh database holds the initial data (with the users key, see Findings) and an id clock at 0 |
| MockApi.MockDatabase.Reset | services/api/mock.ts:61-64 | reset puts the initial data back |
| MockApi.MockDatabase.Register | services/api/mock.ts:87-111 | register refuses an email already present, ignoring case, and changes nothing; otherwise it appends the new user with a fresh `u-` id |
| MockApi.MockDatabase.RestaurantById | services/api/mock.ts:117 | getById gives a stored restaurant with that id, or nothing when no stored restaurant has it |
| MockApi.MockDatabase.CreateRestaurant | services/api/mock.ts:118-123 | create stamps a fresh `r-` id and status Pending and puts the record at the front |
| MockApi.MockDatabase.UpdateRestaurant | services/api/mock.ts:124-129 | update replaces every restaurant with that id and silently changes nothing when there is none |
| MockApi.MockDatabase.DeleteRestaurant | services/api/mock.ts:130-133 | delete drops every restaurant with that id and keeps the rest in order |
| MockApi.MockDatabase.UpdateRestaurantStatus | services/api/mock.ts:134-143 | updateStatus sets the status of the first restaurant with that id and changes nothing else; with no such id it fails with 'Restaurant not found' and changes nothing |
| MockApi.MockDatabase.UpdateRestaurantMenu | services/api/mock.ts:144-153 | updateMenu sets the menu of the first restaurant with that id; with no such id it fails with 'Restaurant not found' and changes nothing |
| MockApi.MockDatabase.OrderById | services/api/mock.ts:158 | getById gives a stored order with that id, or nothing when no stored order has it |
| MockApi.MockDatabase.CreateOrder | services/api/mock.ts:159-163 | create puts the order, unchanged and unchecked, at the front |
| MockApi.MockDatabase.UpdateOrderStatus | services/api/mock.ts:164-173 | updateStatus gives the first order with that id the new status whatever its old one; with no such id it fails with 'Order not found' and changes nothing |
| MockApi.MockDatabase.UpdateOrder | services/api/mock.ts:174-179 | update replaces every order with that id and silently changes nothing when there is none |
| MockApi.MockDatabase.UserById | services/api/mock.ts:184 | getById gives a stored user with that id, or nothing when no stored user has it |
| MockApi.MockDatabase.UpdateUser | services/api/mock.ts:185-194 | update spreads the fields over the first user with that id and writes that record over every user with the id; with no such id it fails with 'User not found' and changes nothing |
| MockApi.MockDatabase.CreateReview | services/api/mock.ts:199-203 | create puts the review at the front |
| MockApi.MockDatabase.CreateNotification | services/api/mock.ts:208-213 | create stamps a fresh `n-` id, date 'Just now' and read=false, and puts the notification at the front |
| MockApi.MockDatabase.MarkAsRead | services/api/mock.ts:214-218 | markAsRead rewrites the notifications as MarkReadEffect describes |
| MockApi.MockDatabase.SendChat | services/api/mock.ts:223-232 | send stamps a fresh `msg-` id and the time and appends the message at the end |
| MockApi.SeedLoginFailsAsWritten | services/api/mock.ts:11-26 | as written, the initial data has no users key, so every login on a fresh database is 'Invalid credentials' |
| MockApi.SeedLoginSucceeds | services/api/mock.ts:11-26 | with the users list the function builds included in the initial data, every demo account can log in |
| DataStore.PointsAwardedBounds | store/slices/orderSlice.ts:42 | for a non-negative total the points awarded are the whole part of ten times the total |
| DataStore.WithResolution | store/slices/orderSlice.ts:87-91 | the resolved order carries the resolution; its status becomes Cancelled for a refund and is otherwise unchanged; no other field changes |
| DataStore.OrderUpdateNoticeNames | store/slices/orderSlice.ts:15-20 | the status notice goes to the order's owner, not to a role, and names the first line's restaurant (or 'Restaurant') and the new status |
| DataStore.NewOrderNoticeNames | store/slices/orderSlice.ts:35-40 | the new-order notice goes to role partner with no user target and names the customer and the total to two decimals |
| DataStore.DisputeNoticesName | store/slices/orderSlice.ts:68-73 | the filed notice goes to role admin and names the reason; the resolved notice (lines 95-100) goes to the owner and names the resolution |
| DataStore.RefundCredits | store/slices/orderSlice.ts:105-115 | a refund puts one credit for the order total at the head of the log and moves the balance by exactly that transaction's signed amount, changing nothing else |
| DataStore.RefundTwice | store/slices/orderSlice.ts:102-117 | nothing stops a second refund: two refunds of one order credit its total twice and log two credits |
| DataStore.ToggleTwice | store/slices/userSlice.ts:13 | the toggle flips Active and Suspended, so toggling twice restores a set status; a missing status becomes Active |
| DataStore.RerateKeepsRatings | store/slices/restaurantSlice.ts:54-63 | when every review has 1 to 5 stars, re-rating keeps every rating within 0 to 5, leaves other restaurants unchanged and sets the target's count to the number of its reviews |
| DataStore.RerateBetween | store/slices/restaurantSlice.ts:55-61 | the target's new rating lies between the fewest and the most stars among its reviews |
| DataStore.DataStore.constructor | store/useDataStore.ts:11-16 | the store starts with empty lists over the given database |
| DataStore.DataStore.UpdateOrderStatus | store/slices/orderSlice.ts:10-30 | an unknown id fails with 'Order not found' and creates no notification; otherwise the status is set whatever it was, exactly one owner notice is created, and only orders with that id change in the copy |
| DataStore.DataStore.AddOrder | store/slices/orderSlice.ts:32-59 | the order goes first unchecked, one partner notice follows, the owner gets floor(total*10) more points when the copy knows the owner, and the lists are refreshed from the database |
| DataStore.DataStore.CreditOwner | store/slices/orderSlice.ts:42-49 | an owner the copy does not know leaves the database as it was; a known owner gets the copy's points plus floor(total*10) in the database's first user with that id; a database without that user rejects with 'User not found' and changes nothing |
| DataStore.DataStore.FileDispute | store/slices/orderSlice.ts:61-81 | an order the copy does not hold changes nothing; otherwise the order is marked disputed with the reason and status Open and nothing else, and the admins are notified |
| DataStore.DataStore.ResolveDispute | store/slices/orderSlice.ts:83-127 | an unknown order changes nothing; otherwise the resolution is stored (Cancelled on refund) and the owner notified first; a refund then credits the owner's wallet with the total and prepends one credit |
| DataStore.DataStore.AddRestaurant | store/slices/restaurantSlice.ts:12-15 | the database's new record, with a fresh id and status Pending, goes first in the copy |
| DataStore.DataStore.UpdateRestaurant | store/slices/restaurantSlice.ts:17-22 | every entry with that id is replaced, in the database and in the copy |
| DataStore.DataStore.DeleteRestaurant | store/slices/restaurantSlice.ts:24-29 | every entry with that id is removed, in the database and in the copy |
| DataStore.DataStore.SetRestaurantStatus | store/slices/restaurantSlice.ts:31-36 | the database's updated record replaces the copy's entries with that id; an unknown id fails and changes nothing |
| DataStore.DataStore.UpdateMenu | store/slices/restaurantSlice.ts:38-43 | the database's record with the new menu replaces the copy's entries with that id; an unknown id fails and changes nothing |
| DataStore.DataStore.AddReview | store/slices/restaurantSlice.ts:45-67 | the review goes first; a restaurant with the target id gets its rating and count recomputed from the reviews; a target that is no restaurant changes no restaurant |
| DataStore.DataStore.ToggleUserStatus | store/slices/userSlice.ts:9-19 | a user the copy does not hold changes nothing; otherwise Active becomes Suspended and anything else Active, in the database and in the copy |
| DataStore.DataStore.UpdateUser | store/slices/userSlice.ts:21-26 | the database's merged user replaces the copy's entries with that id; an unknown id fails and changes nothing |
| DataStore.DataStore.AddNotification | store/slices/notificationSlice.ts:9-14 | the stamped notification goes first in the copy |
| DataStore.DataStore.MarkNotificationsAsRead | store/slices/notificationSlice.ts:16-20 | the database marks as read, and the copy becomes the database's list |
| DataStore.DataStore.SendMessage | store/slices/chatSlice.ts:9-14 | the stamped message is appended to the copy and nothing before it moves |
| Session.SortExamined | store/useStore.ts:43-46 | the merge-key search sorts, in place, the option list of the examined lines of the same product only (the `&&` short-circuits); every other line is untouched, no field but the options changes, and the cart keeps its length |
| Session.SortExaminedNoop | store/useStore.ts:44-46 | on lines whose options are already sorted the in-place sort changes nothing |
| Session.SortExaminedCount | store/useStore.ts:44-46 | the in-place sort changes neither the item count nor any line's cart id |
| Session.SameLineIgnoresOrder | store/useStore.ts:43-46 | the merge key ignores the order the options were picked in and the instructions |
| Session.AddQuantityCount | store/useStore.ts:51-53 | adding q to every line with an id adds q to the count once per such line |
| Session.CountAppendOne | store/useStore.ts:61-72 | appending a line adds its quantity to the count |
| Session.UniqueCount | store/useStore.ts:52 | with distinct cart ids exactly one line has a given line's id |
| Session.AddedToCartKeepsOtherProducts | store/useStore.ts:41-75 | with distinct line ids, addToCart leaves every line of another product exactly as it was, options included |
| Session.AddedToCartCount | store/useStore.ts:41-75 | with distinct line ids, addToCart raises the count by the added quantity (default 1), and appends a line exactly when no line has the same product and options |
| Session.RemoveLineExact | store/useStore.ts:77-81 | removeFromCart leaves no line with that id, keeps every other line, and changes nothing when the id is absent |
| Session.Bumped | store/useStore.ts:87 | the new quantity is at least 1 and at least quantity + delta, and equals quantity + delta whenever that is at least 1 |
| Session.WalletMovesBySigned | store/useStore.ts:171-217 | a debit or a top-up logs one transaction first and moves the balance by exactly that transaction's signed amount |
| Session.TopUpThenDebit | store/useStore.ts:188-214 | a top-up then a debit of the same amount restores the balance and adds two transactions |
| Session.SessionStore.constructor | store/useStore.ts:36-39 | the session starts with an empty cart, no favourites and no user |
| Session.SessionStore.AddToCart | store/useStore.ts:41-75 | the cart becomes the merge-or-append result, and a fresh line id is used only when a line is appended |
| Session.SessionStore.RemoveFromCart | store/useStore.ts:77-81 | the lines with that id go and the others stay in order |
| Session.SessionStore.UpdateQuantity | store/useStore.ts:83-93 | only lines with that id change, and their quantity never falls below 1; positive quantities stay positive |
| Session.SessionStore.ClearCart | store/useStore.ts:95 | the cart is empty, with count 0 and total 0 |
| Session.SessionStore.ToggleFavorite | store/useStore.ts:97-107 | an absent id is appended and a present one removed |
| Session.SessionStore.Login | store/useStore.ts:122-132 | a successful login makes the database's user the session user; a failure changes nothing and gives null |
| Session.SessionStore.Register | store/useStore.ts:134-144 | the registered user becomes the session user; a taken email gives null and changes nothing |
| Session.SessionStore.Logout | store/useStore.ts:146-149 | no user and an empty cart |
| Session.SessionStore.AddAddress | store/useStore.ts:151-162 | with a user, the address is appended under a fresh `a-` id; without one nothing changes |
| Session.SessionStore.UpdateCurrentUser | store/useStore.ts:164-169 | the fields are spread over the session user; without one nothing changes |
| Session.SessionStore.DeductWallet | store/useStore.ts:171-196 | true exactly when there is a user whose balance is at least the amount (equal suffices); false changes nothing; true applies and logs the debit |
| Session.SessionStore.TopUpWallet | store/useStore.ts:198-217 | with a user, the balance rises by the amount and a 'Wallet Top Up' credit is logged first |
| Session.SessionStore.AccruePoints | store/useStore.ts:219-229 | with a user, the points rise by the amount and nothing else changes |
| Lists.Toggle | store/useStore.ts:97-107 | a present value is removed (every copy) and an absent one appended; no other value's membership changes |
| Lists.ToggleAbsentTwice | store/useStore.ts:97-107 | toggling an absent value twice gives the list back exactly |
| Lists.FilterOutUnique | store/useStore.ts:101 | in a duplicate-free list, filtering out one value removes just its position |
| Lists.TogglePresentTwice | store/useStore.ts:97-107 | toggling a present value of a duplicate-free list twice gives back the same values, as a permutation |
| Lists.AppendBack | store/useStore.ts:102 | appending a new value gives the same values as inserting it anywhere |
| Lists.ToggleTwiceMembers | store/useStore.ts:97-107 | toggling twice keeps the same members whatever the duplicates; a present value comes back last |
| Checkout.PriceShape | features/checkout/CheckoutPage.tsx:45-54 | the total is the discounted subtotal plus 14% tax on it, plus the fee (25 for delivery, 0 for pickup) and the tip; it is never below fee plus tip; the points are the whole part of ten times the total |
| Checkout.DiscountLowersTotal | features/checkout/CheckoutPage.tsx:48-51 | a bigger discount rate never raises the total |
| Checkout.FreeShipChangesNothing | features/checkout/CheckoutPage.tsx:67-73 | FREESHIP carries a zero rate, so the 25 delivery fee is still charged and the total equals the total with no code |
| Checkout.PromoAfter | features/checkout/CheckoutPage.tsx:56-78 | a blank field changes nothing; a change always either clears the code or applies the upper-cased input; a known rate stays known |
| Checkout.PromoIgnoresCase | features/checkout/CheckoutPage.tsx:60 | codes are matched regardless of letter case |
| Checkout.PaddedCodeRejected | features/checkout/CheckoutPage.tsx:57-60 | the code is not trimmed before matching, so " WELCOME50" is an invalid code and clears the applied one |
| Checkout.PlacedOrder | features/checkout/CheckoutPage.tsx:124-137 | the new order is Placed, undisputed, carries the computed total, the whole cart and the user's id, takes the first line's restaurant, and has an address exactly for delivery |
| Checkout.CheckoutPage.constructor | features/checkout/CheckoutPage.tsx:35-41 | the page starts with delivery, cash, no tip and no promo code |
| Checkout.CheckoutPage.ApplyPromo | features/checkout/CheckoutPage.tsx:56-78 | the applied code becomes PromoAfter of the field, the delivery method and the old code |
| Checkout.CheckoutPage.Submit | features/checkout/CheckoutPage.tsx:104-160 | with no user, or a wallet payment the balance cannot cover, nothing changes; otherwise the wallet is debited (wallet payments only), the order goes first in the database with one partner notice, the points are credited and the cart is emptied |
| Checkout.CheckoutPage.Place | features/checkout/CheckoutPage.tsx:122-155 | for a session user who can pay: the order is built from the cart as it was, with id `ord-` and the clock's last six digits; a wallet payment debits the total with an 'Order #' entry, and the page's second balance check after the debit can never fail; the order and one partner notice go first in the database; the user gets the points on top of the debit; the cart ends empty |
| Checkout.CheckoutPage.Record | features/checkout/CheckoutPage.tsx:148-155 | after addOrder, accruePoints and clearCart: the order and its partner notice head the database lists, the session user has the points added, and the cart is empty |
| PartnerOrders.TabOrdersExact | features/partner/PartnerOrdersPage.tsx:14-21 | an order is listed under a tab exactly when its status is among that tab's statuses |
| PartnerOrders.ReadyAndPickedUpUnlisted | features/partner/PartnerOrdersPage.tsx:14-15 | Ready and Picked Up orders appear under neither tab |
| PartnerOrders.TabsPartition | features/partner/PartnerOrdersPage.tsx:14-21 | the two tabs share no order, and with the Ready and Picked Up orders they account for every order |
| PartnerOrders.OffersGoForward | features/partner/PartnerOrdersPage.tsx:33-77 | every offered move except Cancelled goes exactly one stage forward, and Cancelled is offered only from Placed |
| PartnerOrders.OffersOnlyEarly | features/partner/PartnerOrdersPage.tsx:33-77 | moves are offered exactly from Placed (Confirmed or Cancelled), Confirmed (Preparing) and Preparing (Rider Assigned) |
| PartnerOrders.OfferedOrdersAreActive | features/partner/PartnerOrdersPage.tsx:14-21 | an order offered a move is listed under the active tab |
| Kitchen.QueueExact | features/partner/PartnerKDSPage.tsx:12-14 | the queue holds exactly the Confirmed and Preparing orders, each as often as in the store, in ascending date order |
| Kitchen.BumpOffered | features/partner/PartnerKDSPage.tsx:16-20 | each ticket's bump is a move the partner order list also offers for that status, one stage forward |
| Kitchen.CountersSplitQueue | features/partner/PartnerKDSPage.tsx:38-42 | the New and Cooking counters add up to the queue's length |
| Tracking.IndexOf | features/orders/OrderTrackingPage.tsx:56 | findIndex gives the first position holding the status, or -1 exactly when it is absent |
| Tracking.StepIndexCases | features/orders/OrderTrackingPage.tsx:50-57 | every status but Cancelled finds its step (Ready as Preparing, Picked Up as Out for Delivery); Cancelled gets -1, completes no step and shows the first step |
| Tracking.TimelineIndex | features/orders/OrderTrackingPage.tsx:25-32 | each timeline step's index is its position |
| Tracking.StepIndexMonotone | features/orders/OrderTrackingPage.tsx:50-57 | along an order's life, leaving out Cancelled, the step index never goes back |
| Tracking.PartnerMovesAdvance | features/orders/OrderTrackingPage.tsx:56 | every partner move other than Cancel advances the timeline by one step |
| Tracking.BumpAdvances | features/orders/OrderTrackingPage.tsx:56 | every kitchen bump advances the timeline by one step |
| Tracking.ProgressBounds | features/orders/OrderTrackingPage.tsx:70-72 | a shown progress bar is neither empty nor full and grows with the step |
| Tracking.RiderCardCases | features/orders/OrderTrackingPage.tsx:137 | the rider card shows exactly for Rider Assigned, Picked Up and Out for Delivery |
| Tracking.CookOfferedIff | features/orders/OrderTrackingPage.tsx:22 | cook mode is offered exactly for a delivered order holding at least one meal kit |
| AdminOrders.AllShowsEverything | features/admin/AdminOrdersPage.tsx:13-19 | under 'All' with an empty search every order is listed, in order |
| AdminOrders.DisputedFilterMatchesCounter | features/admin/AdminOrdersPage.tsx:13-21 | with an empty search the 'Disputed' filter lists exactly the open disputes, so the counter equals the number of rows shown |
| AdminOrders.ShownExact | features/admin/AdminOrdersPage.tsx:13-19 | an order is listed exactly when it passes both the filter and the case-insensitive id search |
| AdminOrders.StatusFilter | features/admin/AdminOrdersPage.tsx:14-16 | the Placed, Delivered and Cancelled options keep exactly the orders in that status |
| AdminOrders.ResolvedOnce | features/admin/AdminOrdersPage.tsx:119-129 | after Refund or Dismiss settles an open dispute the row offers neither button again |
| RiderDashboard.ActiveTaskIsFirst | features/rider/RiderDashboard.tsx:13-14 | the card shows the first order in store order that is a delivery task; with none the searching panel shows |
| RiderDashboard.LabelsByStatus | features/rider/RiderDashboard.tsx:35-67 | the header reads 'Dropoff' exactly for Picked Up and Out for Delivery, the button navigates to the dropoff only for Out for Delivery |
| RiderDelivery.PressSequence | features/rider/RiderDeliveryPage.tsx:41-67 | the first press only marks arrival; the second dispatches Picked Up, schedules Out for Delivery and switches to dropoff; each dropoff press dispatches Delivered |
| RiderDelivery.RunStaysConsistent | features/rider/RiderDeliveryPage.tsx:19-67 | from a consistent view every run of presses and syncs stays consistent and never leaves the dropoff leg |
| RiderDelivery.ReachableButton | features/rider/RiderDeliveryPage.tsx:69-75 | in every reachable view the button reads 'Confirm Delivery' exactly on the dropoff leg |
| RiderDelivery.DeliveryScreen.constructor | features/rider/RiderDeliveryPage.tsx:16-20 | the screen starts on the pickup leg, assigned, with no dispatch pending |
| RiderDelivery.DeliveryScreen.Sync | features/rider/RiderDeliveryPage.tsx:23-35 | with the order present the view becomes the synced view for its status; without it nothing changes |
| RiderDelivery.DeliveryScreen.Dispatch | features/rider/RiderDeliveryPage.tsx:50-62 | the order's status in the database becomes the dispatched status, and the order stays present or absent |
| RiderDelivery.DeliveryScreen.HandleAction | features/rider/RiderDeliveryPage.tsx:41-67 | without the order nothing changes; with it the view advances as the press sequence says and the named status reaches the store |
| RiderDelivery.DeliveryScreen.OutForDeliveryTimer | features/rider/RiderDeliveryPage.tsx:52-54 | a pending timer dispatches Out for Delivery and clears; with none pending nothing changes |
| RiderEarnings.EarningsOverTips | features/rider/RiderEarningsPage.tsx:15-20 | summed earnings are at least the summed tips plus 3.50 per order |
| RiderEarnings.TotalsRelated | features/rider/RiderEarningsPage.tsx:11-20 | only delivered orders count, and the total earnings are at least the tips plus 3.50 per delivered order |
| RiderEarnings.WeeklyBars | features/rider/RiderEarningsPage.tsx:24-32 | the chart has seven bars |
| RiderEarnings.BarsAddUp | features/rider/RiderEarningsPage.tsx:24-32 | the seven bars add up to the total earnings |
| RiderEarnings.Recent | features/rider/RiderEarningsPage.tsx:34-39 | exactly min(5, n) entries for n delivered orders, each the activity of the delivered order at the same position |
| RiderEarnings.RecentLabels | features/rider/RiderEarningsPage.tsx:36-38 | an entry says 'Delivery + Tip' exactly when its order has a tip, and pays that order's earning |
| NoticeBoard.BadgeCountsPageList | components/organisms/Navbar.tsx:19-24 | the bell counts exactly the unread entries of the notifications page's list; signed out both are empty |
| NoticeBoard.MarkAllClearsBadge | features/notifications/NotificationsPage.tsx:69 | after 'Mark all as read' nothing concerning the user is unread, when no notice names both a user and a role |
| NoticeBoard.CrossTargetedNoticeStaysUnread | services/api/mock.ts:214-218 | a notice for another user's id and this user's role stays unread after marking all as read |
| NoticeBoard.BadgesShown | components/organisms/Navbar.tsx:71-90 | the bell shows exactly with unread notices, '9+' above nine; the cart badge shows exactly with a positive count |
| Profile.OrderHistoryExact | features/profile/ProfilePage.tsx:54 | the order history holds exactly the store's orders placed by the signed-in user |
| Profile.ReportedOnce | features/profile/ProfilePage.tsx:287-295 | after filing a dispute the order no longer offers 'Report Issue', and its status is unchanged |
| Profile.AddOneLength | features/profile/ProfilePage.tsx:56-57 | one addToCart adds at most one cart line and drops none |
| Profile.ReorderedLength | features/profile/ProfilePage.tsx:56-57 | reordering drops no cart line and adds at most one line per order line |
| Profile.ReorderedStep | features/profile/ProfilePage.tsx:56-57 | reordering from line i on is adding line i, then reordering the rest |
| Profile.WithoutCard | features/profile/ProfilePage.tsx:94-95 | no remaining card has the removed id, and every card with another id remains |
| Profile.AddThenRemoveCard | features/profile/ProfilePage.tsx:88-95 | removing a card just added under a fresh id restores the list |
| Profile.FourDigits | features/profile/ProfilePage.tsx:89 | a number from 1000 to 9999 is written with four characters |
| Profile.ProfilePage.constructor | features/profile/ProfilePage.tsx:30-39 | the address form starts empty and closed, with the two seed cards |
| Profile.ProfilePage.EditAddress | features/profile/ProfilePage.tsx:30-31 | typing sets the two address fields and opens the form |
| Profile.ProfilePage.SubmitAddress | features/profile/ProfilePage.tsx:67-75 | with both fields filled the address is appended to the user's addresses and the form cleared and closed; otherwise nothing changes |
| Profile.ProfilePage.AddCard | features/profile/ProfilePage.tsx:88-92 | a Visa card with a fresh id and four digits is appended |
| Profile.ProfilePage.RemoveCard | features/profile/ProfilePage.tsx:94-96 | the saved cards become the list without that id |
| Profile.ProfilePage.Reorder | features/profile/ProfilePage.tsx:56-60 | the cart and the id clock end as reordering every line in turn gives |
| Reviews.SumRatingsBetween | store/slices/restaurantSlice.ts:56 | the summed ratings of reviews all between lo and hi lie between n*lo and n*hi |
| Reviews.MeanBetween | store/slices/restaurantSlice.ts:57 | a mean of values bounded by lo and hi is bounded by them too |
| Reviews.MeanRatingBetween | store/slices/restaurantSlice.ts:55-57 | the recomputed mean of ratings between lo and hi lies between lo and hi |
| Reviews.PercentAdd | features/reviews/ReviewsSection.tsx:22-25 | percentages over one total add by their numerators |
| Reviews.PercentWhole | features/reviews/ReviewsSection.tsx:24 | the whole of the total is 100 percent |
| Reviews.ReviewStats | features/reviews/ReviewsSection.tsx:15-28 | the total is the number of reviews; with none the mean and every bar are 0; otherwise each bar is its star's share in percent |
| Reviews.StarCountsTotal | features/reviews/ReviewsSection.tsx:22-25 | every one-to-five review falls in exactly one star row |
| Reviews.DistributionSums100 | features/reviews/ReviewsSection.tsx:22-25 | with one-to-five ratings the five bars add up to 100 |
| Reviews.PercentsSum100 | features/reviews/ReviewsSection.tsx:22-25 | five counts that make up the number of reviews have `(count / total) * 100` shares adding up to exactly 100 |
| Reviews.FilledStarsBetween | features/reviews/ReviewsSection.tsx:50-51 | with one-to-five ratings one to five stars are filled, none without reviews |
| Reviews.AfterPicksRated | features/reviews/components/ReviewModal.tsx:60-64 | whatever stars are pressed, the form's rating stays between one and five |
| Reviews.SubmitReview | features/reviews/components/ReviewModal.tsx:24-38 | no review without a user; otherwise one for the order's restaurant ('unknown' without one) by that user with the form's stars and comment and no votes |
| PartnerFinance.BalanceShape | features/partner/PartnerFinancePage.tsx:12-15 | the net is 85% of revenue, the shown balance 250 below it, -250 with nothing delivered |
| PartnerFinance.EarningRows | features/partner/PartnerFinancePage.tsx:18-24 | exactly min(10, n) rows for n delivered orders, row i being the i-th delivered order at 85% of its total |
| PartnerFinance.RowsShape | features/partner/PartnerFinancePage.tsx:18-35 | the payout leads exactly when there is an earning row; every other row is an earning; at most eleven rows |
| PartnerFinance.Export | features/partner/PartnerFinancePage.tsx:37-48 | the report has the header and one row per list entry, with its id and kind |
| PartnerFinance.ExportAmounts | features/partner/PartnerFinancePage.tsx:45 | payouts are exported non-positive, earnings as they are |
| AdminLedger.LedgerShape | features/admin/AdminTransactionsPage.tsx:13-36 | two rows per order: its payment for the total and its 15% commission, every row 'Completed' |
| AdminLedger.LedgerRows | features/admin/AdminTransactionsPage.tsx:13-36 | the ledger has twice as many rows as there are orders, and rows 2i and 2i+1 are order i's payment row and commission row, in store order |
| AdminLedger.LedgerCompleted | features/admin/AdminTransactionsPage.tsx:13-36 | every ledger row carries the status 'Completed', whatever the order's own status |
| AdminLedger.LedgerAppend | features/admin/AdminTransactionsPage.tsx:13 | the ledger of joined order lists is the joined ledgers |
| AdminLedger.CsvLines | features/admin/AdminTransactionsPage.tsx:39-53 | the export holds the header line and one comma-joined line per row |
| AdminLedger.CsvRowFields | features/admin/AdminTransactionsPage.tsx:44-52 | a row's line split at commas gives back its seven cells when no text cell holds a comma |
| AdminLedger.CsvHeaderFields | features/admin/AdminTransactionsPage.tsx:41-43 | the header line splits back into its seven names |
| FilterModal.TogglePrice | features/feed/components/FilterModal.tsx:25-32 | a price symbol is in the new list exactly when it was not in the old one; nothing else changes |
| FilterModal.ToggleDietary | features/feed/components/FilterModal.tsx:34-41 | a dietary tag is in the new list exactly when it was not in the old one; nothing else changes |
| FilterModal.PickRating | features/feed/components/FilterModal.tsx:122 | picking the current minimum clears it, picking any other sets it; nothing else changes |
| FilterModal.PickRatingTwice | features/feed/components/FilterModal.tsx:122 | the same rating button twice restores an unset filter or one set to that rating |
| FilterModal.PickSort | features/feed/components/FilterModal.tsx:88 | a sort radio stores its label lower-cased, of the same length; nothing else changes |
| FilterModal.PickSortSelects | features/feed/components/FilterModal.tsx:73-88 | the radio just picked shows as selected, and the labels the feed sorts on store the keys it compares with |
| FilterModal.Reset | features/feed/components/FilterModal.tsx:48-50 | a reset sorts by 'recommended' and clears price, dietary and rating |
| FilterModal.ResetClearsMark | features/feed/FeedPage.tsx:134 | after a reset the filter mark is gone, and resetting again changes nothing |
| Feed.Bucket | features/feed/FeedPage.tsx:59-67 | a kit's estimated symbol is one to four '$' |
| Feed.BucketMonotone | features/feed/FeedPage.tsx:63-66 | a dearer kit never gets a cheaper symbol |
| Feed.TiesKeepCatalogueOrder | features/feed/FeedPage.tsx:98-102 | under any sort, kits of equal price and restaurants of equal rating keep their catalogue order |
| Feed.KitsExact | features/feed/FeedPage.tsx:83-100 | the kits shown are exactly those passing every test, each as often as in the catalogue, cheapest first under 'price: low to high' and otherwise in catalogue order |
| Feed.RestaurantsExact | features/feed/FeedPage.tsx:90-102 | the restaurants shown are exactly those passing every test, best rated first under 'rating' and otherwise in catalogue order |
| Feed.OpenCategories | features/feed/FeedPage.tsx:47-50 | 'trending', 'popular', 'near_me' and ids of no category accept every item |
| Feed.DefaultFiltersAcceptAll | features/feed/FeedPage.tsx:56-80 | with the default filters no item fails the price, rating or dietary test |
| Feed.KitsPassEveryOfferedRating | features/feed/FeedPage.tsx:70-86 | kits rated 4.8 pass every minimum rating the dialog offers |
| Feed.DietIgnoresCase | features/feed/FeedPage.tsx:75-78 | dietary tags match whatever their letter case |
| Feed.FirstLoadShowsAll | features/feed/FeedPage.tsx:41-105 | an empty search under 'trending' with default filters shows the whole catalogue in order |
| SearchOverlay.BlankFindsNothing | components/organisms/SearchOverlay.tsx:31 | a query of spaces only finds nothing |
| SearchOverlay.ResultsAreFirstHits | components/organisms/SearchOverlay.tsx:33-51 | each of the three lists holds exactly min(3, hits) entries, and they are the catalogue's first hits in catalogue order |
| SearchOverlay.NoResultsMeansNoHits | components/organisms/SearchOverlay.tsx:31-51 | for a non-blank query 'no results' holds exactly when nothing in the catalogue matches |
| ProductModal.Options | components/molecules/ProductModal.tsx:22-26 | an absent option list is replaced by the three defaults, a present one (even empty) is kept |
| ProductModal.OptionPrice | components/molecules/ProductModal.tsx:38-39 | the price of the first option with that name, 0 when the list has none |
| ProductModal.TickAddsOptionPrice | components/molecules/ProductModal.tsx:36-42 | ticking an option adds its price to each unit; with nothing ticked a unit costs the item's price |
| ProductModal.ProductDialog.constructor | components/molecules/ProductModal.tsx:15-17 | the dialog opens with one unit, nothing ticked and no notes |
| ProductModal.ProductDialog.Increment | components/molecules/ProductModal.tsx:127 | the quantity goes up by one |
| ProductModal.ProductDialog.Decrement | components/molecules/ProductModal.tsx:120 | the quantity goes down by one but never below one |
| ProductModal.ProductDialog.ToggleOption | components/molecules/ProductModal.tsx:28-34 | the option is ticked exactly when it was not before |
| ProductModal.ProductDialog.SetNotes | components/molecules/ProductModal.tsx:108 | the notes become the typed text |
| ProductModal.ProductDialog.Submit | components/molecules/ProductModal.tsx:44-50 | the current choice is handed on and the form returns to one unit, nothing ticked, no notes, a total of the item's price |
| CookMode.RecipeSteps | features/cooking/CookModePage.tsx:18-19 | 'Recipe not found' shows exactly when no kit has the route's item id |
| CookMode.FormatTimeShape | features/cooking/CookModePage.tsx:79-83 | the clock text is the minutes, a colon and two second digits whose tens digit is below 6, and they add back up to the seconds |
| CookMode.ProgressBounds | features/cooking/CookModePage.tsx:85 | the bar is never empty, grows with the step, and is full exactly on the last step |
| CookMode.CookScreen.constructor | features/cooking/CookModePage.tsx:13-32 | the screen opens on the first step with its timer stopped and loaded with the step's time |
| CookMode.CookScreen.MoveTo | features/cooking/CookModePage.tsx:22-32 | changing step stops the timer and loads that step's time |
| CookMode.CookScreen.Next | features/cooking/CookModePage.tsx:57-65 | before the last step the next step is loaded with its timer stopped; on the last step the screen finishes and nothing else changes |
| CookMode.CookScreen.Prev | features/cooking/CookModePage.tsx:67-71 | after the first step the previous one is loaded with its timer stopped; on the first nothing changes |
| CookMode.CookScreen.ToggleTimer | features/cooking/CookModePage.tsx:73 | the timer switches between running and stopped |
| CookMode.CookScreen.ResetTimer | features/cooking/CookModePage.tsx:74-77 | the timer stops and shows the step's full time |
| CookMode.CookScreen.Tick | features/cooking/CookModePage.tsx:34-53 | a running timer with time left counts down one second and stops on reaching zero; otherwise nothing changes |
| CookMode.RunDown | features/cooking/CookModePage.tsx:34-53 | a running timer left alone reaches zero and stops |
| MenuEditor.RemoveAt | features/partner/components/MenuEditorModal.tsx:56-58 | exactly the row at that index goes, the others keep their order |
| MenuEditor.AddThenRemove | features/partner/components/MenuEditorModal.tsx:46-58 | removing the row just added restores the rows |
| MenuEditor.SavedId | features/partner/components/MenuEditorModal.tsx:63 | the edited item's non-empty id is kept, otherwise a fresh `m-` id is made |
| MenuEditor.MenuEditorDialog.constructor | features/partner/components/MenuEditorModal.tsx:15-25 | the dialog starts with no item, a blank form and no option rows |
| MenuEditor.MenuEditorDialog.Open | features/partner/components/MenuEditorModal.tsx:27-44 | opening loads the item and its options (none when it has none), or a blank form with no rows |
| MenuEditor.MenuEditorDialog.EditForm | features/partner/components/MenuEditorModal.tsx:15 | typing replaces the form |
| MenuEditor.MenuEditorDialog.AddOption | features/partner/components/MenuEditorModal.tsx:46-48 | an empty row is appended |
| MenuEditor.MenuEditorDialog.ChangeOption | features/partner/components/MenuEditorModal.tsx:50-54 | one field of one row changes; every other row and field stays |
| MenuEditor.MenuEditorDialog.RemoveOption | features/partner/components/MenuEditorModal.tsx:56-58 | exactly that row goes |
| MenuEditor.MenuEditorDialog.Submit | features/partner/components/MenuEditorModal.tsx:60-73 | the saved item carries the saved id, the form's fields and the option rows |
| PartnerMenu.ShownExact | features/partner/PartnerMenuPage.tsx:21-26 | the listed items are exactly the menu's items whose name or category includes the search, all of them for an empty search |
| PartnerMenu.DeletedExact | features/partner/PartnerMenuPage.tsx:38-44 | nothing with the id is left, every other item stays, and the menu shrinks by the number that had the id |
| PartnerMenu.SavedShape | features/partner/PartnerMenuPage.tsx:46-57 | an edit replaces exactly the positions with the saved id; an addition puts the item first |
| PartnerMenu.AddThenDelete | features/partner/PartnerMenuPage.tsx:38-57 | adding an item under a new id and deleting it restores the menu |
| RestaurantPage.FindRestaurant | features/restaurant/RestaurantPage.tsx:21-41 | 'Restaurant not found' shows exactly when no restaurant has the id; otherwise the one found has it |
| RestaurantPage.RestaurantReviews | features/restaurant/RestaurantPage.tsx:22 | the list holds exactly the reviews aimed at the restaurant |
| RestaurantPage.FirstAt | features/restaurant/RestaurantPage.tsx:44 | the position of a value's first occurrence |
| RestaurantPage.Distinct | features/restaurant/RestaurantPage.tsx:44 | each value once, nothing else, in the order of first appearance |
| RestaurantPage.FirstAtExtend | features/restaurant/RestaurantPage.tsx:44 | appending keeps every earlier first occurrence in place |
| RestaurantPage.TabsExact | features/restaurant/RestaurantPage.tsx:44 | after 'All' there is one tab per category on the menu, each once, in first-appearance order; with no menu only 'All' |
| RestaurantPage.FilteredMenuExact | features/restaurant/RestaurantPage.tsx:46-48 | under 'All' the whole menu shows; under a category exactly its items |
| RestaurantPage.AddedLineCopiesFields | features/restaurant/RestaurantPage.tsx:50-62 | a new cart line carries the item's id, name, price and image, this restaurant, the quantity and the notes |
| RestaurantEditor.Opened | features/admin/components/RestaurantEditorModal.tsx:29-46 | the form opens with the edited restaurant's fields, or the new-restaurant defaults |
| RestaurantEditor.AddCuisine | features/admin/components/RestaurantEditorModal.tsx:66-74 | a non-blank input is trimmed, appended and cleared; a blank one changes nothing |
| RestaurantEditor.RemoveCuisine | features/admin/components/RestaurantEditorModal.tsx:76-81 | a tag remains exactly when it was there and differs from the removed one |
| RestaurantEditor.AddThenRemove | features/admin/components/RestaurantEditorModal.tsx:66-81 | removing a tag just added, not there before, restores the form |
| RestaurantEditor.SavedId | features/admin/components/RestaurantEditorModal.tsx:51 | the edited restaurant's non-empty id is kept, otherwise a fresh `r-` id |
| RestaurantEditor.Saved | features/admin/components/RestaurantEditorModal.tsx:48-63 | the record carries the saved id and the form's fields, the menu defaulting to empty, with no status, banner or owner |
| RestaurantEditor.EditRoundTrip | features/admin/components/RestaurantEditorModal.tsx:29-63 | opening and saving a restaurant unchanged keeps it except status, banner, owner and the new mark |
| RestaurantEditor.NewRecordDefaults | features/admin/components/RestaurantEditorModal.tsx:33-60 | saving the untouched new form gives rating 4.5, no reviews, '$$', no cuisines, an empty menu and an `r-` id |
| AdminRestaurants.Listed | features/admin/AdminRestaurantsPage.tsx:19-24 | a restaurant is listed exactly when its name or a cuisine contains the search, ignoring case, and it matches the tab |
| AdminRestaurants.FirstLoadListsAll | features/admin/AdminRestaurantsPage.tsx:12-24 | with an empty search under 'All' every restaurant is listed, in order |
| AdminRestaurants.NoStatusOnlyUnderAll | features/admin/AdminRestaurantsPage.tsx:22 | a restaurant without a status shows under 'All' only |
| AdminRestaurants.Actions | features/admin/AdminRestaurantsPage.tsx:142-178 | no status offers no button, and no button asks for Pending or the current status |
| AdminRestaurants.ActionsAreMoves | features/admin/AdminRestaurantsPage.tsx:142-178 | the buttons offer exactly the approval workflow's moves |
| AdminRestaurants.MissingStatus | features/admin/AdminRestaurantsPage.tsx:131-136 | a restaurant without a status shows 'Active' in a red badge and gets no button |
| AdminRestaurants.NeverBackToPending | features/admin/AdminRestaurantsPage.tsx:142-178 | along any run of presses no status after the first is Pending |
| AdminRestaurants.StatusChangeAddsNoPending | store/slices/restaurantSlice.ts:31-36 | a status change to a non-Pending status keeps the length and makes no entry Pending |
| AdminRestaurants.HandleStatusChange | features/admin/AdminRestaurantsPage.tsx:43-46 | the list keeps its length and every Pending entry afterwards was there unchanged before |
| AdminRestaurants.HandleDelete | features/admin/AdminRestaurantsPage.tsx:36-41 | every entry with the id goes, so the restaurant is listed under no tab and for no search |
| AdminRestaurants.Dispatch | features/admin/AdminRestaurantsPage.tsx:48-56 | editing dispatches an update, otherwise an add, of the editor's saved record |
| AdminRestaurants.HandleSave | features/admin/AdminRestaurantsPage.tsx:48-56 | an edit replaces the entries with the saved id; an add puts the record first with a fresh id and Pending |
| AdminRestaurants.AddedIsPending | features/admin/AdminRestaurantsPage.tsx:48-56 | a new restaurant heads the Pending tab with approve and reject |
| AdminRestaurants.EditedLeavesWorkflow | features/admin/AdminRestaurantsPage.tsx:48-51 | an edited restaurant is saved without a status, so it leaves every status tab, shows 'Active' and loses its buttons |
| AuthGuard.Guard | components/layouts/AuthGuard.tsx:17-39 | no user goes to login; a signed-in user is let in exactly when no roles are named or its role is among them, otherwise sent to its role's home |
| AuthGuard.HomeAccess | router.tsx:89-125 | each role's home lies in its own section, the customer's in the public feed |
| AuthGuard.RedirectIsEnterable | components/layouts/AuthGuard.tsx:22-37 | wherever the guard redirects, the same user is let in, so it cannot loop |
| AuthGuard.TrackingRoutes | router.tsx:91 | `/tracking/:id` is guarded exactly when the id is one non-empty segment; `/tracking/` is public |
| AuthGuard.CookRoutes | router.tsx:92 | `/cook/:orderId/:itemId` is guarded only with both segments present and non-empty; `/cook/<id>` alone is public |
| AuthGuard.HomeIsEnterable | router.tsx:98-125 | a signed-in user is always let into its own home |
| Sorting.SortStringsCorrect | store/useStore.ts:43-45 | the default `.sort()` of the option names returns the same names in ascending order |
| Sorting.SortStringsCanonical | store/useStore.ts:43-45 | two lists of the same option names in any order sort to the same list, so the cart key ignores their order |
| Sorting.SortByKeyStable | features/feed/FeedPage.tsx:98-102 | the sort is stable: for every key value, the elements with that key come out in the order they went in |
| Sorting.SortByKeyCorrect | features/feed/FeedPage.tsx:98-102 | the feed's sort returns a permutation of its input, ascending by the key |
| Sorting.SortByKeyOfSorted | features/feed/FeedPage.tsx:98-102 | a list already in order comes back unchanged |
| Text.BlankIffAllSpace | features/admin/components/RestaurantEditorModal.tsx:67 | `trim()` leaves nothing exactly when every character is ECMAScript white space or a line terminator (every Zs space, U+FEFF, U+2028 and U+2029 included) |
| Text.LowerIdempotent | features/admin/AdminRestaurantsPage.tsx:20-21 | lower-casing twice is lower-casing once |
| Text.JoinSplit | features/admin/AdminTransactionsPage.tsx:15 | joining a split's pieces with the separator gives the string back |
| Text.SplitJoin | features/admin/AdminTransactionsPage.tsx:42-53 | splitting a join of separator-free pieces gives the pieces back |
| Text.HalfUp | store/slices/restaurantSlice.ts:57 | the rounded integer is within half a unit of the value |
| Text.RoundFixedClose | store/slices/restaurantSlice.ts:57 | `toFixed` with one or two decimals moves the value by at most half a unit of the last kept place |
| Text.RoundFixedMonotone | store/slices/restaurantSlice.ts:57 | `toFixed` rounding never reverses the order of two numbers |
| Text.RoundFixedInteger | store/slices/restaurantSlice.ts:57 | a whole number is left unchanged by `toFixed` |
| Text.DecimalText | features/admin/AdminTransactionsPage.tsx:49 | the text of a `toFixed(2)` amount never holds a comma |
| Text.NatToString | components/organisms/Navbar.tsx:73 | the decimal text of a count is non-empty and all digits |

## Left out

- Rendering, styling, icons, toasts, navigation, scrolling, and the open/close state of dialogs are presentation only and are not modelled.
- The mock database's localStorage load and save (services/api/mock.ts:36-48) and its simulated delay are I/O and time. The database is an in-memory record, and every awaited call is one atomic step with no interleaving.
- The seed fixtures (data/db.ts, data/mockAccounts.ts) are not part of this model. `MockApi.Seed` stands for them as a parameter.
- `Date.now()` ids and display dates are replaced by per-object counters and date parameters. Two ids made in the same millisecond can collide in the source, but never here.
- Floating point is not modelled. Prices are exact reals, so a `toFixed` tie that a double rounds the other way is not captured.
- The `get` wiring in store/useDataStore.ts:12-16 hands the slices an empty object, so `get()` in the order and user slices would throw. The slice bodies are modelled as written, and the crash is not modelled.
- The session user (store/useStore.ts) and the database users (store slices) are separate state. Points are credited to both. No invariant links the two records.
- CSV download plumbing (Blob, object URL, link click) is I/O. The quoting does not double embedded quotes as section 2 of RFC 4180 requires, so no RFC 4180 conformance is claimed. `AdminLedger.CsvRowFields` holds only for cells without commas.
- The `.sort()` calls in store/useStore.ts:43-45 sort option arrays in place. The model sorts the options of the examined cart lines of the same product (`Session.SortExamined`), as the short-circuiting `&&` does; other products' lines keep their order (`Session.AddedToCartKeepsOtherProducts`). It does not track the caller's own array, which the source sorts too: aliasing between the caller and the store is not modelled.
- The feed's in-place sorts (features/feed/FeedPage.tsx:99, 101) and the partner finance page's `unshift` (features/partner/PartnerFinancePage.tsx:28) act on arrays built just before, so they are modelled as functions on sequences.
- The kitchen queue's and the feed's sorts are `Array.prototype.sort` with a comparator. They are modelled as a stable insertion sort on sequences, proved sorted and a permutation.
- The rider screen's 1.5 s navigation after delivery and the cook-mode toast are presentation only. The 1 s 'Out for Delivery' timer and the one-second cook-mode tick are separate methods (`RiderDelivery.DeliveryScreen.OutForDeliveryTimer`, `CookMode.CookScreen.Tick`).
- The rider screen's local statuses `arriving_pickup` and `picked_up` are declared in the source but never entered, so the model leaves them out.
- 'Delay' on the partner order list (features/partner/PartnerOrdersPage.tsx:28-31) only shows a toast and changes no state. No member models it.
- The random four digits of a new card (features/profile/ProfilePage.tsx:89) are a parameter of `Profile.ProfilePage.AddCard`.
- The profile page's clock for card ids starts at 3, past the two seeded ids, instead of at `Date.now()`.
- handleSaveProfile, the password change and the notification preferences on the profile page are not modelled: they only forward fields to `Session.SessionStore.UpdateCurrentUser` or touch display state.
- The delete buttons' `confirm()` dialogs are assumed accepted, both on the partner menu and on the admin restaurant list.
- `PartnerMenu` works on the first restaurant's menu. The page crashes when there is no restaurant; the model takes the menu as a parameter instead.
- `CookMode.CookScreen.ResetTimer` requires a current step. The page reads `currentStep.duration` and would crash on a kit with no steps.
- The restaurant editor's first `useState` defaults (distance 0, '20-30 min') are overwritten by its open effect before anyone sees them, so only the effect's defaults are modelled.
- Partner finance sums every order in the store, not only the partner's. The model does the same.
- A menu category literally named 'All' gives a second 'All' tab on the restaurant page. The model keeps that, and `RestaurantPage.TabsExact` is stated for the tabs after the first.
- The search overlay matches with the untrimmed query, so a query with a trailing space finds less. The model keeps that.
- AuthGuard's rendering of its children and the saved location state are left out. `AuthGuard.AccessOf` covers only the routes that carry a guard or that a redirect can reach. The router's case-insensitive matching and its optional trailing slash are not modelled: `/Tracking/x` and `/tracking/x/` count as public here.
- AdminRestaurants.HandleStatusChange: states that the list keeps its length and gains no Pending entry, not the full new state. The full effect is the contract of `DataStore.DataStore.SetRestaurantStatus`, which it calls. A failed result is ignored, as on the page.
- RiderDelivery.DeliveryScreen.HandleAction: states the view, the pending timer and the order's status in the database. The notification each dispatch adds is stated by `DataStore.DataStore.UpdateOrderStatus`, not repeated here.
- RiderDelivery.DeliveryScreen.Dispatch: states only that the order's status becomes the dispatched one and that the order stays present or absent. The rest is `DataStore.DataStore.UpdateOrderStatus`'s contract.
- Checkout.CheckoutPage.Submit: states the session, the orders and the notifications. It does not restate the points addOrder credits to the database user, which `DataStore.DataStore.AddOrder` states.
- Text.Lower and Text.Upper map ASCII letters only. JavaScript's toLowerCase and toUpperCase map every Unicode letter (and a few to two characters), so an accented or non-Latin query such as 'ÉCLAIR' does not find 'éclair' here; email matching, promo codes and every search inherit this.
- Sorting.StrLe compares strings by code point, while the default `.sort()` compares UTF-16 code units. The two orders differ only for characters above U+FFFF.
- MockApi.MockDatabase.constructor and MockApi.MockDatabase.Reset build the corrected initial data, with the users list, not the data getInitialData returns as written; the as-written data is `MockApi.InitialDataAsWritten`, and the consequence is the finding below.
- RiderEarnings.WeeklyBars: states only that there are seven bars. What they add up to is `RiderEarnings.BarsAddUp`.

## Findings

| source | as written | input that shows it | evidently intended | confidence | as-written member | corrected member |
|---|---|---|---|---|---|---|
| services/api/mock.ts:11-26 | getInitialData builds the list of demo users but leaves it out of the record it returns, so a fresh database has no `users` collection | a fresh database (no localStorage), then login with any demo account's email: 'Invalid credentials' | the returned record includes the `users` list, so every demo account can log in | high (not executed) | MockApi.SeedLoginFailsAsWritten | MockApi.SeedLoginSucceeds |
