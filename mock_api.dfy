// The in-browser back end (services/api/mock.ts): one object `data` that
// maps collection names to lists, and the collection operations of
// `mockApi` that read a list, rebuild it and write it back. Every awaited
// read/write is one atomic step; the localStorage copy and the simulated
// delay are left out. `Date.now()` in ids is a counter (`clock`) that the
// database advances whenever it stamps an id.
module MockApi {
  import opened Types
  import opened Text
  import opened Lists

  /** The errors thrown by mockApi, one per message. */
  datatype ApiError =
    | InvalidCredentials  // 'Invalid credentials'
    | AccountSuspended    // 'Account suspended. Please contact support.'
    | EmailExists         // 'Email already exists'
    | RestaurantNotFound  // 'Restaurant not found'
    | OrderNotFound       // 'Order not found'
    | UserNotFound        // 'User not found'

  datatype Result<T> = Ok(value: T) | Err(error: ApiError)

  /** The stored object: one list per collection key; `None` is a key that is not there. */
  datatype Data = Data(
    restaurants: Option<seq<Restaurant>>,
    mealKits: Option<seq<MealKit>>,
    chefs: Option<seq<Chef>>,
    reviews: Option<seq<Review>>,
    orders: Option<seq<Order>>,
    users: Option<seq<User>>,
    notifications: Option<seq<Notification>>,
    chats: Option<seq<ChatMessage>>)

  /** `read(c)`: `this.data[c] || []`. */
  function Read<T>(c: Option<seq<T>>): seq<T>
  {
    if c.Some? then c.value else []
  }

  /** A collection written with xs reads back xs; one never written reads as []. */
  lemma ReadWrite<T>(xs: seq<T>)
    ensures Read(Some(xs)) == xs
    ensures Read<T>(None) == []
  {
  }

  /** The id a `${prefix}${Date.now()}` template produces at clock value n. */
  function FreshId(prefix: string, n: nat): string
  {
    prefix + NatToString(n)
  }

  /** The fixtures of data/db.ts and data/mockAccounts.ts, which this model takes as given. */
  datatype Seed = Seed(
    restaurants: seq<Restaurant>,
    mealKits: seq<MealKit>,
    chefs: seq<Chef>,
    reviews: seq<Review>,
    orders: seq<Order>,
    accounts: seq<User>,
    sessionUser: User)

  function UserIdIs(id: string): User -> bool
  {
    (u: User) => u.id == id
  }

  function UserEmailIs(email: string): User -> bool
  {
    (u: User) => Lower(u.email) == Lower(email)
  }

  function OrderIdIs(id: string): Order -> bool
  {
    (o: Order) => o.id == id
  }

  function RestaurantIdIs(id: string): Restaurant -> bool
  {
    (r: Restaurant) => r.id == id
  }

  function RestaurantIdIsNot(id: string): Restaurant -> bool
  {
    (r: Restaurant) => r.id != id
  }

  /** Every demo account marked 'Active', then the seed's session user if its id is not among them. */
  function SeedUsers(seed: Seed): seq<User>
  {
    var users := seq(|seed.accounts|, i requires 0 <= i < |seed.accounts| =>
      seed.accounts[i].(status := Some(UserStatus.Active)));
    if FindFirst(users, UserIdIs(seed.sessionUser.id)).Some? then users
    else users + [seed.sessionUser.(status := Some(UserStatus.Active))]
  }

  function SeedRestaurants(seed: Seed): seq<Restaurant>
  {
    seq(|seed.restaurants|, i requires 0 <= i < |seed.restaurants| =>
      seed.restaurants[i].(status := Some(RestaurantStatus.Active)))
  }

  /**
   * The initial data as the source builds it: the seeded collections with
   * empty chats and notifications. getInitialData builds the user list but
   * does not return it, so the `users` key is absent.
   */
  function InitialDataAsWritten(seed: Seed): Data
  {
    Data(Some(SeedRestaurants(seed)), Some(seed.mealKits), Some(seed.chefs),
         Some(seed.reviews), Some(seed.orders), None, Some([]), Some([]))
  }

  /** The initial data with the user list getInitialData builds. */
  function InitialData(seed: Seed): Data
  {
    InitialDataAsWritten(seed).(users := Some(SeedUsers(seed)))
  }

  /** Position k holds the first user with the email, ignoring case. */
  predicate FirstWithEmail(users: seq<User>, email: string, k: nat)
  {
    k < |users| && Lower(users[k].email) == Lower(email)
    && forall j :: 0 <= j < k ==> Lower(users[j].email) != Lower(email)
  }

  /**
   * auth.login: the first user whose email matches case-insensitively;
   * 'Invalid credentials' when there is none, 'Account suspended' when that
   * user is Suspended. The password is never looked at.
   */
  function LoginIn(users: seq<User>, email: string, password: string): (r: Result<User>)
    ensures r == Err(InvalidCredentials) <==>
      forall i :: 0 <= i < |users| ==> Lower(users[i].email) != Lower(email)
    ensures r.Ok? ==>
      r.value in users && Lower(r.value.email) == Lower(email) && r.value.status != Some(UserStatus.Suspended)
    ensures r.Err? ==> r.error == InvalidCredentials || r.error == AccountSuspended
    ensures r.Ok? ==> exists k: nat :: FirstWithEmail(users, email, k) && users[k] == r.value
    ensures r == Err(AccountSuspended) <==>
      exists k: nat :: FirstWithEmail(users, email, k) && users[k].status == Some(UserStatus.Suspended)
  {
    match FindFirst(users, UserEmailIs(email))
    case None => Err(InvalidCredentials)
    case Some(k) =>
      assert FirstWithEmail(users, email, k);
      if users[k].status == Some(UserStatus.Suspended) then Err(AccountSuspended) else Ok(users[k])
  }

  predicate EmailTaken(users: seq<User>, email: string)
  {
    exists i :: 0 <= i < |users| && Lower(users[i].email) == Lower(email)
  }

  /** The record register builds before the caller's fields are spread over it. */
  function DefaultUser(id: string, email: string, memberSince: string): User
  {
    User(id, "New User", email, Customer,
         "https://api.dicebear.com/7.x/avataaars/svg?seed=" + email, "", memberSince,
         [], 0.0, 0, [], None, None, Some(UserStatus.Active))
  }

  /** `{ ...defaults, ...data }`. */
  function NewUser(fields: UserFields, id: string, memberSince: string): User
    requires fields.email.Some?
  {
    MergeUser(DefaultUser(id, fields.email.value, memberSince), fields)
  }

  /**
   * A registered user starts with an empty wallet, no points, no
   * transactions, no addresses and status Active, unless the caller's fields
   * say otherwise; the email is always the caller's.
   */
  lemma NewUserDefaults(fields: UserFields, id: string, memberSince: string)
    requires fields.email.Some?
    ensures var u := NewUser(fields, id, memberSince);
      u.email == fields.email.value
      && u.walletBalance == (if fields.walletBalance.Some? then fields.walletBalance.value else 0.0)
      && u.loyaltyPoints == (if fields.loyaltyPoints.Some? then fields.loyaltyPoints.value else 0)
      && u.transactions == (if fields.transactions.Some? then fields.transactions.value else [])
      && u.addresses == (if fields.addresses.Some? then fields.addresses.value else [])
      && u.status == (if fields.status.Some? then fields.status else Some(UserStatus.Active))
      && u.id == (if fields.id.Some? then fields.id.value else id)
  {
  }

  function StampNotification(d: NotificationDraft, id: string): Notification
  {
    Notification(id, d.ntype, d.title, d.message, "Just now", false, d.targetUserId, d.targetRole)
  }

  /** `n.targetUserId === userId || !n.targetUserId`. */
  predicate MarkedBy(n: Notification, userId: string)
  {
    (n.targetUserId.Some? && n.targetUserId.value == userId) || Falsy(n.targetUserId)
  }

  /** notifications.markAsRead on a list. */
  function MarkRead(list: seq<Notification>, userId: string): seq<Notification>
  {
    seq(|list|, i requires 0 <= i < |list| =>
      if MarkedBy(list[i], userId) then list[i].(read := true) else list[i])
  }

  /**
   * markAsRead(u) sets the read flag exactly on the notifications addressed
   * to u or to no user (role broadcasts of every role included) and changes
   * nothing else.
   */
  lemma MarkReadEffect(list: seq<Notification>, userId: string)
    ensures var r := MarkRead(list, userId);
      |r| == |list|
      && forall i :: 0 <= i < |list| ==>
        r[i].read == (list[i].read || MarkedBy(list[i], userId))
        && r[i].(read := list[i].read) == list[i]
  {
  }

  /** Marking twice for the same user leaves what marking once left. */
  lemma MarkReadIdempotent(list: seq<Notification>, userId: string)
    ensures MarkRead(MarkRead(list, userId), userId) == MarkRead(list, userId)
  {
  }

  /** A broadcast to any role, with no user target, is marked read by any user. */
  lemma MarkReadMarksRoleBroadcasts(list: seq<Notification>, userId: string, i: nat)
    requires i < |list| && list[i].targetUserId.None? && list[i].targetRole.Some?
    ensures MarkRead(list, userId)[i].read
  {
  }

  function StampMessage(d: ChatDraft, id: string, timestamp: string): ChatMessage
  {
    ChatMessage(id, d.orderId, d.senderId, d.senderName, d.role, d.text, timestamp)
  }

  class MockDatabase {
    const seed: Seed
    var data: Data
    /** Stands for `Date.now()` in the ids this object stamps. */
    var clock: nat

    constructor (seed: Seed)
      ensures this.seed == seed && data == InitialData(seed) && clock == 0
    {
      this.seed := seed;
      data := InitialData(seed);
      clock := 0;
    }

    /** reset: back to the initial data; the clock keeps running. */
    method Reset()
      modifies this`data
      ensures data == InitialData(seed)
    {
      data := InitialData(seed);
    }

    // ---- auth ----

    function Login(email: string, password: string): Result<User>
      reads this`data
    {
      LoginIn(Read(data.users), email, password)
    }

    /**
     * auth.register: refused when the email is taken (case-insensitively);
     * otherwise the new user is appended to the user list.
     */
    method Register(fields: UserFields, memberSince: string) returns (r: Result<User>)
      requires fields.email.Some?
      modifies this`data, this`clock
      ensures var users := Read(old(data).users);
        if EmailTaken(users, fields.email.value) then
          r == Err(EmailExists) && data == old(data) && clock == old(clock)
        else
          r == Ok(NewUser(fields, FreshId("u-", old(clock)), memberSince))
          && data == old(data).(users := Some(users + [r.value]))
          && clock == old(clock) + 1
    {
      var users := Read(data.users);
      var found := FindFirst(users, UserEmailIs(fields.email.value));
      if found.Some? {
        return Err(EmailExists);
      }
      var u := NewUser(fields, FreshId("u-", clock), memberSince);
      clock := clock + 1;
      data := data.(users := Some(users + [u]));
      r := Ok(u);
    }

    // ---- restaurants ----

    function AllRestaurants(): seq<Restaurant>
      reads this`data
    {
      Read(data.restaurants)
    }

    function RestaurantById(id: string): (r: Option<Restaurant>)
      reads this`data
      ensures r.Some? ==> r.value in Read(data.restaurants) && r.value.id == id
      ensures r.None? ==> forall x :: x in Read(data.restaurants) ==> x.id != id
    {
      var list := Read(data.restaurants);
      match FindFirst(list, RestaurantIdIs(id))
      case None => None
      case Some(k) => Some(list[k])
    }

    /** restaurants.create: a fresh id, status Pending, at the front. */
    method CreateRestaurant(r: Restaurant) returns (created: Restaurant)
      modifies this`data, this`clock
      ensures created == r.(id := FreshId("r-", old(clock)), status := Some(RestaurantStatus.Pending))
      ensures data == old(data).(restaurants := Some([created] + Read(old(data).restaurants)))
      ensures clock == old(clock) + 1
    {
      created := r.(id := FreshId("r-", clock), status := Some(RestaurantStatus.Pending));
      clock := clock + 1;
      data := data.(restaurants := Some([created] + Read(data.restaurants)));
    }

    /** restaurants.update: every entry with that id becomes r; none is not an error. */
    method UpdateRestaurant(r: Restaurant) returns (result: Restaurant)
      modifies this`data
      ensures result == r
      ensures data == old(data).(restaurants := Some(ReplaceWhere(Read(old(data).restaurants), RestaurantIdIs(r.id), r)))
    {
      data := data.(restaurants := Some(ReplaceWhere(Read(data.restaurants), RestaurantIdIs(r.id), r)));
      result := r;
    }

    /** restaurants.delete: drops every entry with that id. */
    method DeleteRestaurant(id: string)
      modifies this`data
      ensures data == old(data).(restaurants := Some(Filter(Read(old(data).restaurants), RestaurantIdIsNot(id))))
    {
      data := data.(restaurants := Some(Filter(Read(data.restaurants), RestaurantIdIsNot(id))));
    }

    /** restaurants.updateStatus: the first entry with that id gets the status, or 'Restaurant not found'. */
    method UpdateRestaurantStatus(id: string, status: RestaurantStatus) returns (r: Result<Restaurant>)
      modifies this`data
      ensures var list := Read(old(data).restaurants);
        match FindFirst(list, RestaurantIdIs(id))
        case None => r == Err(RestaurantNotFound) && data == old(data)
        case Some(k) =>
          r == Ok(list[k].(status := Some(status)))
          && data == old(data).(restaurants := Some(list[k := r.value]))
    {
      var list := Read(data.restaurants);
      var found := FindFirst(list, RestaurantIdIs(id));
      if found.None? {
        return Err(RestaurantNotFound);
      }
      var item := list[found.value].(status := Some(status));
      data := data.(restaurants := Some(list[found.value := item]));
      r := Ok(item);
    }

    /** restaurants.updateMenu: the first entry with that id gets the menu, or 'Restaurant not found'. */
    method UpdateRestaurantMenu(id: string, menu: seq<MenuItem>) returns (r: Result<Restaurant>)
      modifies this`data
      ensures var list := Read(old(data).restaurants);
        match FindFirst(list, RestaurantIdIs(id))
        case None => r == Err(RestaurantNotFound) && data == old(data)
        case Some(k) =>
          r == Ok(list[k].(menu := Some(menu)))
          && data == old(data).(restaurants := Some(list[k := r.value]))
    {
      var list := Read(data.restaurants);
      var found := FindFirst(list, RestaurantIdIs(id));
      if found.None? {
        return Err(RestaurantNotFound);
      }
      var item := list[found.value].(menu := Some(menu));
      data := data.(restaurants := Some(list[found.value := item]));
      r := Ok(item);
    }

    // ---- orders ----

    function AllOrders(): seq<Order>
      reads this`data
    {
      Read(data.orders)
    }

    function OrderById(id: string): (r: Option<Order>)
      reads this`data
      ensures r.Some? ==> r.value in Read(data.orders) && r.value.id == id
      ensures r.None? ==> forall x :: x in Read(data.orders) ==> x.id != id
    {
      var list := Read(data.orders);
      match FindFirst(list, OrderIdIs(id))
      case None => None
      case Some(k) => Some(list[k])
    }

    /** orders.create: the order goes to the front, unchanged and unchecked. */
    method CreateOrder(o: Order) returns (created: Order)
      modifies this`data
      ensures created == o
      ensures data == old(data).(orders := Some([o] + Read(old(data).orders)))
    {
      data := data.(orders := Some([o] + Read(data.orders)));
      created := o;
    }

    /**
     * orders.updateStatus: the first order with that id takes the new status
     * whatever its current one (there is no transition check), or 'Order not
     * found' and nothing changes.
     */
    method UpdateOrderStatus(id: string, status: OrderStatus) returns (r: Result<Order>)
      modifies this`data
      ensures var list := Read(old(data).orders);
        match FindFirst(list, OrderIdIs(id))
        case None => r == Err(OrderNotFound) && data == old(data)
        case Some(k) =>
          r == Ok(list[k].(status := status))
          && data == old(data).(orders := Some(list[k := r.value]))
    {
      var list := Read(data.orders);
      var found := FindFirst(list, OrderIdIs(id));
      if found.None? {
        return Err(OrderNotFound);
      }
      var item := list[found.value].(status := status);
      data := data.(orders := Some(list[found.value := item]));
      r := Ok(item);
    }

    /** orders.update: every order with that id becomes o; none is not an error. */
    method UpdateOrder(o: Order) returns (result: Order)
      modifies this`data
      ensures result == o
      ensures data == old(data).(orders := Some(ReplaceWhere(Read(old(data).orders), OrderIdIs(o.id), o)))
    {
      data := data.(orders := Some(ReplaceWhere(Read(data.orders), OrderIdIs(o.id), o)));
      result := o;
    }

    // ---- users ----

    function AllUsers(): seq<User>
      reads this`data
    {
      Read(data.users)
    }

    function UserById(id: string): (r: Option<User>)
      reads this`data
      ensures r.Some? ==> r.value in Read(data.users) && r.value.id == id
      ensures r.None? ==> forall x :: x in Read(data.users) ==> x.id != id
    {
      var list := Read(data.users);
      match FindFirst(list, UserIdIs(id))
      case None => None
      case Some(k) => Some(list[k])
    }

    /**
     * users.update: the first user with that id, with the given fields
     * spread over it, replaces every user with that id; 'User not found'
     * otherwise.
     */
    method UpdateUser(id: string, fields: UserFields) returns (r: Result<User>)
      modifies this`data
      ensures var list := Read(old(data).users);
        match FindFirst(list, UserIdIs(id))
        case None => r == Err(UserNotFound) && data == old(data)
        case Some(k) =>
          r == Ok(MergeUser(list[k], fields))
          && data == old(data).(users := Some(ReplaceWhere(list, UserIdIs(id), r.value)))
    {
      var list := Read(data.users);
      var found := FindFirst(list, UserIdIs(id));
      if found.None? {
        return Err(UserNotFound);
      }
      var updated := MergeUser(list[found.value], fields);
      data := data.(users := Some(ReplaceWhere(list, UserIdIs(id), updated)));
      r := Ok(updated);
    }

    // ---- reviews ----

    function AllReviews(): seq<Review>
      reads this`data
    {
      Read(data.reviews)
    }

    /** reviews.create: the review goes to the front. */
    method CreateReview(rv: Review) returns (created: Review)
      modifies this`data
      ensures created == rv
      ensures data == old(data).(reviews := Some([rv] + Read(old(data).reviews)))
    {
      data := data.(reviews := Some([rv] + Read(data.reviews)));
      created := rv;
    }

    // ---- notifications ----

    function AllNotifications(): seq<Notification>
      reads this`data
    {
      Read(data.notifications)
    }

    /** notifications.create: a fresh id, date 'Just now', unread, at the front. */
    method CreateNotification(d: NotificationDraft) returns (n: Notification)
      modifies this`data, this`clock
      ensures n == StampNotification(d, FreshId("n-", old(clock)))
      ensures !n.read && n.date == "Just now"
      ensures data == old(data).(notifications := Some([n] + Read(old(data).notifications)))
      ensures clock == old(clock) + 1
    {
      n := StampNotification(d, FreshId("n-", clock));
      clock := clock + 1;
      data := data.(notifications := Some([n] + Read(data.notifications)));
    }

    /** notifications.markAsRead: the whole list is rewritten with MarkRead. */
    method MarkAsRead(userId: string)
      modifies this`data
      ensures data == old(data).(notifications := Some(MarkRead(Read(old(data).notifications), userId)))
    {
      data := data.(notifications := Some(MarkRead(Read(data.notifications), userId)));
    }

    // ---- chats, chefs, meal kits ----

    function AllChats(): seq<ChatMessage>
      reads this`data
    {
      Read(data.chats)
    }

    /** chats.send: a fresh id and the given time stamp, at the end. */
    method SendChat(d: ChatDraft, timestamp: string) returns (m: ChatMessage)
      modifies this`data, this`clock
      ensures m == StampMessage(d, FreshId("msg-", old(clock)), timestamp)
      ensures data == old(data).(chats := Some(Read(old(data).chats) + [m]))
      ensures clock == old(clock) + 1
    {
      m := StampMessage(d, FreshId("msg-", clock), timestamp);
      clock := clock + 1;
      data := data.(chats := Some(Read(data.chats) + [m]));
    }

    function AllChefs(): seq<Chef>
      reads this`data
    {
      Read(data.chefs)
    }

    function AllMealKits(): seq<MealKit>
      reads this`data
    {
      Read(data.mealKits)
    }
  }

  /**
   * As written, no demo account can log in on a fresh database: the users key
   * is absent, reads as [], and every email is 'Invalid credentials'.
   */
  lemma SeedLoginFailsAsWritten(seed: Seed, email: string, password: string)
    ensures LoginIn(Read(InitialDataAsWritten(seed).users), email, password) == Err(InvalidCredentials)
  {
  }

  /** With the user list in the initial data, every demo account logs in. */
  lemma {:induction false} SeedLoginSucceeds(seed: Seed, i: nat, password: string)
    requires i < |seed.accounts|
    ensures LoginIn(Read(InitialData(seed).users), seed.accounts[i].email, password).Ok?
  {
    var users := Read(InitialData(seed).users);
    var accounts := seq(|seed.accounts|, j requires 0 <= j < |seed.accounts| =>
      seed.accounts[j].(status := Some(UserStatus.Active)));
    assert users[..|accounts|] == accounts;
    assert users[i] == accounts[i];
    var k := FindFirst(users, UserEmailIs(seed.accounts[i].email));
    assert UserEmailIs(seed.accounts[i].email)(users[i]);
    assert k.Some? && k.value <= i;
    assert users[k.value] == accounts[k.value];
  }
}
