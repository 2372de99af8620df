// The session store (store/useStore.ts): the cart, the favourites and the
// logged-in user with their wallet and points. Every action replaces one of
// these fields; `Date.now()` in the ids it makes is a counter here.
module Session {
  import opened Types
  import opened Text
  import opened Lists
  import opened Sorting
  import opened MockApi

  // ---- cart lines ----

  /** What addToCart is handed: a partial cart line with id, title, price and image. */
  datatype CartInput = CartInput(
    id: string,
    title: string,
    price: real,
    image: string,
    quantity: Option<int>,
    restaurantName: Option<string>,
    restaurantId: Option<string>,
    selectedOptions: Option<seq<string>>,
    instructions: Option<string>)

  /** `opts ? opts.sort().join(',') : ''`. */
  function OptionsKey(opts: Option<seq<string>>): string
  {
    if opts.Some? then Join(SortStrings(opts.value), ",") else ""
  }

  /** The line addToCart merges into: same product and same options in any order. */
  function SameLine(item: CartInput): CartItem -> bool
  {
    (line: CartItem) => line.id == item.id && OptionsKey(Some(line.selectedOptions)) == OptionsKey(item.selectedOptions)
  }

  /** `item.quantity || 1`. */
  function QuantityOr1(q: Option<int>): int
  {
    if q.None? || q.value == 0 then 1 else q.value
  }

  /** `${item.id}-${Date.now()}`. */
  function CartLineId(productId: string, n: nat): string
  {
    productId + "-" + NatToString(n)
  }

  /**
   * The appended line. Its options are the caller's array after the
   * in-place sort that computing the key performed.
   */
  function NewLine(item: CartInput, cartId: string): CartItem
  {
    CartItem(cartId, item.id, item.title, item.price, item.image, QuantityOr1(item.quantity),
             Some(if Falsy(item.restaurantName) then "To-Eat Meal Kits" else item.restaurantName.value),
             item.restaurantId, SortStrings(item.selectedOptions.GetOr([])), item.instructions.GetOr(""))
  }

  /**
   * The search examines the first n lines; the `&&` reaches the key, and
   * so sorts a line's options in place, only on lines of the same product.
   */
  function SortExamined(cart: seq<CartItem>, n: nat, productId: string): (r: seq<CartItem>)
    requires n <= |cart|
    ensures |r| == |cart|
    ensures forall i :: 0 <= i < |cart| && (n <= i || cart[i].id != productId) ==> r[i] == cart[i]
    ensures forall i :: 0 <= i < |cart| ==> r[i].(selectedOptions := cart[i].selectedOptions) == cart[i]
  {
    seq(|cart|, i requires 0 <= i < |cart| =>
      if i < n && cart[i].id == productId then cart[i].(selectedOptions := SortStrings(cart[i].selectedOptions)) else cart[i])
  }

  function CartIdIs(cartId: string): CartItem -> bool
  {
    (line: CartItem) => line.cartId == cartId
  }

  function CartIdIsNot(cartId: string): CartItem -> bool
  {
    (line: CartItem) => line.cartId != cartId
  }

  /** `cart.map(i => i.cartId === id ? { ...i, quantity: i.quantity + q } : i)`. */
  function AddQuantity(cart: seq<CartItem>, cartId: string, q: int): seq<CartItem>
  {
    seq(|cart|, i requires 0 <= i < |cart| =>
      if cart[i].cartId == cartId then cart[i].(quantity := cart[i].quantity + q) else cart[i])
  }

  /** The cart after addToCart, given the id a new line would get. */
  function AddedToCart(cart: seq<CartItem>, item: CartInput, cartId: string): seq<CartItem>
  {
    match FindFirst(cart, SameLine(item))
    case Some(k) => AddQuantity(SortExamined(cart, k + 1, item.id), cart[k].cartId, QuantityOr1(item.quantity))
    case None => SortExamined(cart, |cart|, item.id) + [NewLine(item, cartId)]
  }

  function Quantity(line: CartItem): int
  {
    line.quantity
  }

  function LineTotal(line: CartItem): real
  {
    line.price * line.quantity as real
  }

  /** getCartCount: the sum of the line quantities. */
  function CartCount(cart: seq<CartItem>): int
  {
    SumInt(cart, Quantity)
  }

  /** getCartTotal: the sum of price times quantity. */
  function CartTotal(cart: seq<CartItem>): real
  {
    Sum(cart, LineTotal)
  }

  predicate OptionsSorted(cart: seq<CartItem>)
  {
    forall i :: 0 <= i < |cart| ==> SortedStrings(cart[i].selectedOptions)
  }

  predicate UniqueCartIds(cart: seq<CartItem>)
  {
    forall i, j :: 0 <= i < j < |cart| ==> cart[i].cartId != cart[j].cartId
  }

  lemma SortSorted(s: seq<string>)
    requires SortedStrings(s)
    ensures SortStrings(s) == s
  {
    SortStringsCorrect(s);
    SortedUnique(SortStrings(s), s);
  }

  /** Lines whose options are already sorted are left as they are by the in-place sort. */
  lemma SortExaminedNoop(cart: seq<CartItem>, n: nat, productId: string)
    requires n <= |cart| && OptionsSorted(cart)
    ensures SortExamined(cart, n, productId) == cart
  {
    forall i | 0 <= i < n
      ensures SortStrings(cart[i].selectedOptions) == cart[i].selectedOptions
    {
      SortSorted(cart[i].selectedOptions);
    }
  }

  /** The merge key ignores the order the options were picked in and the instructions. */
  lemma SameLineIgnoresOrder(item: CartInput, other: seq<string>, notes: Option<string>, line: CartItem)
    requires item.selectedOptions.Some? && multiset(other) == multiset(item.selectedOptions.value)
    ensures SameLine(item.(selectedOptions := Some(other), instructions := notes))(line) == SameLine(item)(line)
  {
    SortStringsCanonical(other, item.selectedOptions.value);
  }

  /** Adding q to every line with an id adds q once per such line to the count. */
  lemma {:induction false} AddQuantityCount(cart: seq<CartItem>, cartId: string, q: int)
    ensures CartCount(AddQuantity(cart, cartId, q)) == CartCount(cart) + q * Count(cart, CartIdIs(cartId))
  {
    if cart != [] {
      AddQuantityCount(cart[1..], cartId, q);
      assert AddQuantity(cart, cartId, q)[1..] == AddQuantity(cart[1..], cartId, q);
      if cart[0].cartId == cartId {
        assert q * (Count(cart[1..], CartIdIs(cartId)) + 1) == q * Count(cart[1..], CartIdIs(cartId)) + q;
      }
    }
  }

  lemma {:induction false} SortExaminedCount(cart: seq<CartItem>, n: nat, productId: string)
    requires n <= |cart|
    ensures CartCount(SortExamined(cart, n, productId)) == CartCount(cart)
    ensures forall i :: 0 <= i < |cart| ==> SortExamined(cart, n, productId)[i].cartId == cart[i].cartId
    decreases |cart|
  {
    if cart != [] {
      SortExaminedCount(cart[1..], if n > 0 then n - 1 else 0, productId);
      assert SortExamined(cart, n, productId)[1..] == SortExamined(cart[1..], if n > 0 then n - 1 else 0, productId);
    }
  }

  lemma {:induction false} CountAppendOne(cart: seq<CartItem>, line: CartItem)
    ensures CartCount(cart + [line]) == CartCount(cart) + line.quantity
  {
    if cart != [] {
      CountAppendOne(cart[1..], line);
      assert (cart + [line])[1..] == cart[1..] + [line];
    } else {
      assert cart + [line] == [line];
      assert [line][1..] == [];
    }
  }

  lemma {:induction false} UniqueCount(cart: seq<CartItem>, k: nat)
    requires k < |cart| && UniqueCartIds(cart)
    ensures Count(cart, CartIdIs(cart[k].cartId)) == 1
  {
    var id := cart[k].cartId;
    if k == 0 {
      assert forall i :: 0 <= i < |cart[1..]| ==> !CartIdIs(id)(cart[1..][i]);
      FilterNone(cart[1..], CartIdIs(id));
    } else {
      UniqueCount(cart[1..], k - 1);
    }
  }

  /**
   * With distinct line ids, addToCart raises the item count by the added
   * quantity, whether it merges into a line or appends one; it appends
   * exactly when no line has the same product and options.
   */
  lemma AddedToCartCount(cart: seq<CartItem>, item: CartInput, cartId: string)
    requires UniqueCartIds(cart)
    ensures CartCount(AddedToCart(cart, item, cartId)) == CartCount(cart) + QuantityOr1(item.quantity)
    ensures |AddedToCart(cart, item, cartId)| == |cart| + (if FindFirst(cart, SameLine(item)).None? then 1 else 0)
  {
    match FindFirst(cart, SameLine(item))
    case Some(k) =>
      var sorted := SortExamined(cart, k + 1, item.id);
      SortExaminedCount(cart, k + 1, item.id);
      assert UniqueCartIds(sorted);
      UniqueCount(sorted, k);
      AddQuantityCount(sorted, cart[k].cartId, QuantityOr1(item.quantity));
    case None =>
      SortExaminedCount(cart, |cart|, item.id);
      CountAppendOne(SortExamined(cart, |cart|, item.id), NewLine(item, cartId));
  }

  /**
   * With distinct line ids, addToCart leaves every line of another product
   * exactly as it was, options included: the search never sorts them and
   * the quantity update touches only the matched line.
   */
  lemma AddedToCartKeepsOtherProducts(cart: seq<CartItem>, item: CartInput, cartId: string)
    requires UniqueCartIds(cart)
    ensures forall i :: 0 <= i < |cart| && cart[i].id != item.id ==> AddedToCart(cart, item, cartId)[i] == cart[i]
  {
    match FindFirst(cart, SameLine(item))
    case Some(k) =>
      var sorted := SortExamined(cart, k + 1, item.id);
      forall i | 0 <= i < |cart| && cart[i].id != item.id
        ensures AddedToCart(cart, item, cartId)[i] == cart[i]
      {
        assert sorted[i] == cart[i];
        assert cart[i].cartId != cart[k].cartId by {
          assert i != k;
          if i < k {
            assert cart[i].cartId != cart[k].cartId;
          } else {
            assert cart[k].cartId != cart[i].cartId;
          }
        }
      }
    case None =>
      var sorted := SortExamined(cart, |cart|, item.id);
      forall i | 0 <= i < |cart| && cart[i].id != item.id
        ensures AddedToCart(cart, item, cartId)[i] == cart[i]
      {
        assert (sorted + [NewLine(item, cartId)])[i] == sorted[i];
      }
  }

  /** `cart.filter(i => i.cartId !== id)`. */
  function RemoveLine(cart: seq<CartItem>, cartId: string): seq<CartItem>
  {
    Filter(cart, CartIdIsNot(cartId))
  }

  function AnyLine(line: CartItem): bool
  {
    true
  }

  /**
   * Removing a line id deletes exactly the lines with that id: none is
   * left, all the others remain, and nothing changes when the id is absent.
   */
  lemma RemoveLineExact(cart: seq<CartItem>, cartId: string)
    ensures Count(RemoveLine(cart, cartId), CartIdIs(cartId)) == 0
    ensures |RemoveLine(cart, cartId)| == |cart| - Count(cart, CartIdIs(cartId))
    ensures Count(cart, CartIdIs(cartId)) == 0 ==> RemoveLine(cart, cartId) == cart
  {
    var r := RemoveLine(cart, cartId);
    FilterNone(r, CartIdIs(cartId));
    CountPartition(cart, CartIdIs(cartId), CartIdIsNot(cartId), AnyLine);
    FilterAll(cart, AnyLine);
    if Count(cart, CartIdIs(cartId)) == 0 {
      FilterAll(cart, CartIdIsNot(cartId));
    }
  }

  /** updateQuantity's new quantity: `Math.max(1, quantity + delta)`. */
  function Bumped(quantity: int, delta: int): (r: int)
    ensures r >= 1 && r >= quantity + delta
    ensures quantity + delta >= 1 ==> r == quantity + delta
  {
    if quantity + delta > 1 then quantity + delta else 1
  }

  /** Every line holds at least one unit. */
  predicate QuantitiesPositive(cart: seq<CartItem>)
  {
    forall i :: 0 <= i < |cart| ==> cart[i].quantity >= 1
  }

  // ---- wallet ----

  /** The user after a wallet debit of amount recorded as tx. */
  function Debited(u: User, amount: real, tx: Transaction): User
  {
    u.(walletBalance := u.walletBalance - amount, transactions := [tx] + u.transactions)
  }

  /** The user after a top-up of amount recorded as tx. */
  function ToppedUp(u: User, amount: real, tx: Transaction): User
  {
    u.(walletBalance := u.walletBalance + amount, transactions := [tx] + u.transactions)
  }

  function DebitTx(id: string, amount: real, date: string, description: string): Transaction
  {
    Transaction(id, Debit, amount, date, description)
  }

  function TopUpTx(id: string, amount: real, date: string): Transaction
  {
    Transaction(id, Credit, amount, date, "Wallet Top Up")
  }

  /** Each wallet action moves the balance by exactly the signed amount of the transaction it logs. */
  lemma WalletMovesBySigned(u: User, amount: real, id: string, date: string, description: string)
    ensures var d := Debited(u, amount, DebitTx(id, amount, date, description));
      d.transactions[0] == DebitTx(id, amount, date, description)
      && d.walletBalance == u.walletBalance + Signed(d.transactions[0])
      && d.transactions[1..] == u.transactions
    ensures var c := ToppedUp(u, amount, TopUpTx(id, amount, date));
      c.transactions[0] == TopUpTx(id, amount, date)
      && c.walletBalance == u.walletBalance + Signed(c.transactions[0])
      && c.transactions[1..] == u.transactions
  {
    var d := Debited(u, amount, DebitTx(id, amount, date, description));
    assert d.transactions[1..] == u.transactions;
    var c := ToppedUp(u, amount, TopUpTx(id, amount, date));
    assert c.transactions[1..] == u.transactions;
  }

  /** A top-up then a debit of the same amount restores the balance and logs two transactions. */
  lemma TopUpThenDebit(u: User, amount: real, t1: Transaction, t2: Transaction)
    ensures var v := Debited(ToppedUp(u, amount, t1), amount, t2);
      v.walletBalance == u.walletBalance && v.transactions == [t2, t1] + u.transactions
      && |v.transactions| == |u.transactions| + 2
  {
  }

  // ---- the store ----

  class SessionStore {
    var cart: seq<CartItem>
    var favorites: seq<string>
    var user: Option<User>
    /** Stands for `Date.now()` in the ids this store makes. */
    var clock: nat
    const db: MockDatabase

    constructor (db: MockDatabase)
      ensures this.db == db && cart == [] && favorites == [] && user == None && clock == 0
    {
      this.db := db;
      cart, favorites, user, clock := [], [], None, 0;
    }

    /**
     * addToCart: add to the line with the same product and options, or
     * append a new line with a fresh cart id.
     */
    method AddToCart(item: CartInput)
      modifies this`cart, this`clock
      ensures cart == AddedToCart(old(cart), item, CartLineId(item.id, old(clock)))
      ensures clock == old(clock) + (if FindFirst(old(cart), SameLine(item)).None? then 1 else 0)
    {
      var existing := FindFirst(cart, SameLine(item));
      if existing.Some? {
        var k := existing.value;
        cart := AddQuantity(SortExamined(cart, k + 1, item.id), cart[k].cartId, QuantityOr1(item.quantity));
      } else {
        var line := NewLine(item, CartLineId(item.id, clock));
        clock := clock + 1;
        cart := SortExamined(cart, |cart|, item.id) + [line];
      }
    }

    /** removeFromCart: the lines with that id go; the others stay in order. */
    method RemoveFromCart(cartId: string)
      modifies this`cart
      ensures cart == RemoveLine(old(cart), cartId)
    {
      cart := RemoveLine(cart, cartId);
    }

    /**
     * updateQuantity: the lines with that id get quantity + delta, but never
     * less than 1; every other line stays as it was.
     */
    method UpdateQuantity(cartId: string, delta: int)
      modifies this`cart
      ensures |cart| == |old(cart)|
      ensures forall i :: 0 <= i < |cart| ==>
        cart[i] == if old(cart)[i].cartId == cartId
                   then old(cart)[i].(quantity := Bumped(old(cart)[i].quantity, delta))
                   else old(cart)[i]
      ensures QuantitiesPositive(old(cart)) ==> QuantitiesPositive(cart)
    {
      var c := cart;
      cart := seq(|c|, i requires 0 <= i < |c| =>
        if c[i].cartId == cartId then c[i].(quantity := Bumped(c[i].quantity, delta)) else c[i]);
    }

    method ClearCart()
      modifies this`cart
      ensures cart == [] && CartCount(cart) == 0 && CartTotal(cart) == 0.0
    {
      cart := [];
    }

    method ToggleFavorite(id: string)
      modifies this`favorites
      ensures favorites == Toggle(old(favorites), id)
    {
      favorites := Toggle(favorites, id);
    }

    /** login: the store's user becomes the session user; on failure nothing changes and null comes back. */
    method Login(email: string, password: string) returns (r: Option<User>)
      modifies this`user
      ensures match db.Login(email, password)
        case Ok(u) => r == Some(u) && user == Some(u)
        case Err(_) => r == None && user == old(user)
    {
      var res := db.Login(email, password);
      if res.Err? {
        return None;
      }
      user := Some(res.value);
      r := Some(res.value);
    }

    /** register: the registered user becomes the session user; a taken email gives null. */
    method Register(fields: UserFields, memberSince: string) returns (r: Option<User>)
      requires fields.email.Some?
      modifies this`user, db`data, db`clock
      ensures var users := Read(old(db.data).users);
        if EmailTaken(users, fields.email.value) then
          r == None && user == old(user) && db.data == old(db.data) && db.clock == old(db.clock)
        else
          var u := NewUser(fields, FreshId("u-", old(db.clock)), memberSince);
          r == Some(u) && user == Some(u)
          && db.data == old(db.data).(users := Some(users + [u])) && db.clock == old(db.clock) + 1
    {
      var res := db.Register(fields, memberSince);
      if res.Err? {
        return None;
      }
      user := Some(res.value);
      r := Some(res.value);
    }

    /** logout: no user and an empty cart; favourites stay. */
    method Logout()
      modifies this`user, this`cart
      ensures user == None && cart == []
    {
      user := None;
      cart := [];
    }

    /** addAddress: with a user, the address is appended under a fresh `a-` id. */
    method AddAddress(title: string, fullAddress: string)
      modifies this`user, this`clock
      ensures old(user).None? ==> user == old(user) && clock == old(clock)
      ensures old(user).Some? ==>
        var a := Address(FreshId("a-", old(clock)), title, fullAddress);
        user == Some(old(user).value.(addresses := old(user).value.addresses + [a]))
        && clock == old(clock) + 1
    {
      if user.None? {
        return;
      }
      var a := Address(FreshId("a-", clock), title, fullAddress);
      clock := clock + 1;
      user := Some(user.value.(addresses := user.value.addresses + [a]));
    }

    /** updateCurrentUser: the fields are spread over the session user, if any. */
    method UpdateCurrentUser(fields: UserFields)
      modifies this`user
      ensures user == if old(user).None? then None else Some(MergeUser(old(user).value, fields))
    {
      if user.Some? {
        user := Some(MergeUser(user.value, fields));
      }
    }

    /**
     * deductWallet: false and no change without a user or when the balance
     * is below the amount (an equal balance is enough); otherwise true, with
     * the debit applied and logged first.
     */
    method DeductWallet(amount: real, description: string, date: string) returns (ok: bool)
      modifies this`user, this`clock
      ensures ok <==> old(user).Some? && old(user).value.walletBalance >= amount
      ensures !ok ==> user == old(user) && clock == old(clock)
      ensures ok ==> (user == Some(Debited(old(user).value, amount, DebitTx(FreshId("tx-", old(clock)), amount, date, description)))
                      && clock == old(clock) + 1)
    {
      if user.None? || user.value.walletBalance < amount {
        return false;
      }
      var tx := DebitTx(FreshId("tx-", clock), amount, date, description);
      clock := clock + 1;
      user := Some(Debited(user.value, amount, tx));
      ok := true;
    }

    /** topUpWallet: with a user, the balance rises by the amount and a 'Wallet Top Up' credit is logged first. */
    method TopUpWallet(amount: real, date: string)
      modifies this`user, this`clock
      ensures old(user).None? ==> user == old(user) && clock == old(clock)
      ensures old(user).Some? ==>
        user == Some(ToppedUp(old(user).value, amount, TopUpTx(FreshId("tx-", old(clock)), amount, date)))
        && clock == old(clock) + 1
    {
      if user.None? {
        return;
      }
      var tx := TopUpTx(FreshId("tx-", clock), amount, date);
      clock := clock + 1;
      user := Some(ToppedUp(user.value, amount, tx));
    }

    /** accruePoints: with a user, the points rise by the amount; nothing else changes. */
    method AccruePoints(amount: int)
      modifies this`user
      ensures old(user).None? ==> user == old(user)
      ensures old(user).Some? ==>
        user == Some(old(user).value.(loyaltyPoints := old(user).value.loyaltyPoints + amount))
    {
      if user.Some? {
        user := Some(user.value.(loyaltyPoints := user.value.loyaltyPoints + amount));
      }
    }
  }
}
