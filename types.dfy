// Records and enumerations shared by the store, the mock back end and the
// pages (types.ts). Optional TypeScript fields become `Option`; an optional
// boolean that the code only tests for truthiness becomes a plain `bool`
// (absent = false), and an optional number it only reads as `x || 0`
// becomes a `real` (absent = 0).
module Types {

  datatype Option<T> = None | Some(value: T)
  {
    function GetOr(default: T): T
    {
      if Some? then value else default
    }
  }

  /** 'user' | 'partner' | 'rider' | 'admin'; 'user' is the eating customer. */
  datatype Role = Customer | Partner | Rider | Admin

  datatype TxType = Credit | Debit

  datatype Transaction = Transaction(
    id: string, txType: TxType, amount: real, date: string, description: string)

  /** What a transaction does to a wallet balance: credits add, debits subtract. */
  function Signed(tx: Transaction): real
  {
    if tx.txType == Credit then tx.amount else -tx.amount
  }

  /** A saved address; `title` is the source's `label` (a reserved word here). */
  datatype Address = Address(id: string, title: string, fullAddress: string)

  datatype UserStatus = Active | Suspended

  datatype User = User(
    id: string,
    name: string,
    email: string,
    role: Role,
    avatar: string,
    phone: string,
    memberSince: string,
    addresses: seq<Address>,
    walletBalance: real,
    loyaltyPoints: int,
    transactions: seq<Transaction>,
    restaurantId: Option<string>,
    vehicleType: Option<string>,
    status: Option<UserStatus>)

  /** A `Partial<User>`: `None` means the key is not present. */
  datatype UserFields = UserFields(
    id: Option<string>,
    name: Option<string>,
    email: Option<string>,
    role: Option<Role>,
    avatar: Option<string>,
    phone: Option<string>,
    memberSince: Option<string>,
    addresses: Option<seq<Address>>,
    walletBalance: Option<real>,
    loyaltyPoints: Option<int>,
    transactions: Option<seq<Transaction>>,
    restaurantId: Option<string>,
    vehicleType: Option<string>,
    status: Option<UserStatus>)

  const NoFields := UserFields(None, None, None, None, None, None, None, None,
                               None, None, None, None, None, None)

  /** `{ ...u, ...p }`: every present key of p overrides u's. */
  function MergeUser(u: User, p: UserFields): User
  {
    User(
      p.id.GetOr(u.id),
      p.name.GetOr(u.name),
      p.email.GetOr(u.email),
      p.role.GetOr(u.role),
      p.avatar.GetOr(u.avatar),
      p.phone.GetOr(u.phone),
      p.memberSince.GetOr(u.memberSince),
      p.addresses.GetOr(u.addresses),
      p.walletBalance.GetOr(u.walletBalance),
      p.loyaltyPoints.GetOr(u.loyaltyPoints),
      p.transactions.GetOr(u.transactions),
      if p.restaurantId.Some? then p.restaurantId else u.restaurantId,
      if p.vehicleType.Some? then p.vehicleType else u.vehicleType,
      if p.status.Some? then p.status else u.status)
  }

  /** The nine order states of types.ts:36. */
  datatype OrderStatus =
    | Placed | Confirmed | Preparing | Ready | RiderAssigned
    | PickedUp | OutForDelivery | Delivered | Cancelled

  function StatusName(s: OrderStatus): string
  {
    match s
    case Placed => "Placed"
    case Confirmed => "Confirmed"
    case Preparing => "Preparing"
    case Ready => "Ready"
    case RiderAssigned => "Rider Assigned"
    case PickedUp => "Picked Up"
    case OutForDelivery => "Out for Delivery"
    case Delivered => "Delivered"
    case Cancelled => "Cancelled"
  }

  /** `o.status === 'Delivered'`: the orders the earnings pages count. */
  predicate IsDelivered(o: Order)
  {
    o.status == Delivered
  }

  datatype DisputeStatus = Open | Resolved | Refunded

  function DisputeName(d: DisputeStatus): string
  {
    match d
    case Open => "Open"
    case Resolved => "Resolved"
    case Refunded => "Refunded"
  }

  datatype DeliveryMethod = Delivery | Pickup

  datatype PaymentMethod = Cash | Card | Wallet

  datatype CartItem = CartItem(
    cartId: string,
    id: string,
    title: string,
    price: real,
    image: string,
    quantity: int,
    restaurantName: Option<string>,
    restaurantId: Option<string>,
    selectedOptions: seq<string>,
    instructions: string)

  datatype Order = Order(
    id: string,
    userId: string,
    restaurantId: Option<string>,
    date: string,
    status: OrderStatus,
    total: real,
    items: seq<CartItem>,
    deliveryMethod: Option<DeliveryMethod>,
    paymentMethod: Option<PaymentMethod>,
    tip: real,
    deliveryAddress: Option<string>,
    customerName: string,
    isDisputed: bool,
    disputeReason: Option<string>,
    disputeStatus: Option<DisputeStatus>)

  datatype RecipeStep = RecipeStep(order: int, instruction: string, duration: nat, tip: Option<string>)

  datatype MealKit = MealKit(
    id: string, title: string, description: string, price: real,
    tags: seq<string>, steps: Option<seq<RecipeStep>>)

  datatype MenuItemOption = MenuItemOption(name: string, price: real)

  datatype MenuItem = MenuItem(
    id: string,
    name: string,
    description: string,
    price: real,
    image: string,
    category: string,
    popular: bool,
    options: Option<seq<MenuItemOption>>)

  datatype RestaurantStatus = Active | Pending | Suspended

  datatype Restaurant = Restaurant(
    id: string,
    name: string,
    rating: real,
    reviewCount: int,
    cuisine: seq<string>,
    distance: real,
    deliveryTime: string,
    priceRange: string,
    image: string,
    isNew: bool,
    banner: Option<string>,
    menu: Option<seq<MenuItem>>,
    ownerId: Option<string>,
    status: Option<RestaurantStatus>)

  datatype Chef = Chef(id: string, name: string, specialty: string)

  datatype Review = Review(
    id: string,
    targetId: string,
    userId: string,
    userName: string,
    userAvatar: string,
    rating: int,
    date: string,
    comment: string,
    helpfulCount: int)

  datatype NotificationType = OrderUpdate | Promo | System | DisputeUpdate | NewOrder

  datatype Notification = Notification(
    id: string,
    ntype: NotificationType,
    title: string,
    message: string,
    date: string,
    read: bool,
    targetUserId: Option<string>,
    targetRole: Option<Role>)

  /** What callers hand to notifications.create: a notification without id, date and read flag. */
  datatype NotificationDraft = NotificationDraft(
    ntype: NotificationType,
    title: string,
    message: string,
    targetUserId: Option<string>,
    targetRole: Option<Role>)

  /** The sender role of a chat message is 'user' or 'rider'. */
  datatype ChatMessage = ChatMessage(
    id: string,
    orderId: string,
    senderId: string,
    senderName: string,
    role: Role,
    text: string,
    timestamp: string)

  datatype ChatDraft = ChatDraft(
    orderId: string, senderId: string, senderName: string, role: Role, text: string)

  /** JavaScript truthiness of an optional string: absent or "" is falsy. */
  predicate Falsy(s: Option<string>)
  {
    s.None? || s.value == ""
  }
}
