// The checkout page (features/checkout/CheckoutPage.tsx): the price
// breakdown, the promo-code field and the order submission, which debits
// the wallet, places the order in the shared store, credits the points and
// empties the cart, in that order.
module Checkout {
  import opened Types
  import opened Text
  import opened Lists
  import opened MockApi
  import opened DataStore
  import opened Session

  /** An applied promo code and the share of the subtotal it takes off. */
  datatype AppliedCode = AppliedCode(code: string, discount: real)

  datatype Pricing = Pricing(
    subtotal: real, deliveryFee: real, discount: real, tax: real, total: real, points: int)

  /** 25 for delivery, nothing for pickup. */
  function DeliveryFee(how: DeliveryMethod): real
  {
    if how == Delivery then 25.0 else 0.0
  }

  /** The breakdown shown beside the cart (lines 45-54). */
  function Price(subtotal: real, how: DeliveryMethod, promo: Option<AppliedCode>, tip: real): Pricing
  {
    var discount := if promo.Some? then subtotal * promo.value.discount else 0.0;
    var tax := (subtotal - discount) * 0.14;
    var total := (subtotal - discount) + DeliveryFee(how) + tax + tip;
    Pricing(subtotal, DeliveryFee(how), discount, tax, total, (total * 10.0).Floor)
  }

  /** The discount rates a code can carry. */
  predicate KnownRate(p: Option<AppliedCode>)
  {
    p.None? || p.value.discount == 0.0 || p.value.discount == 0.2 || p.value.discount == 0.5
  }

  /**
   * With a non-negative subtotal and tip and a known rate, the total is the
   * discounted subtotal with 14% tax on top, plus the fee and the tip; it is
   * never below fee plus tip, and the points are its whole tenths.
   */
  lemma PriceShape(subtotal: real, how: DeliveryMethod, promo: Option<AppliedCode>, tip: real)
    requires subtotal >= 0.0 && tip >= 0.0 && KnownRate(promo)
    ensures var p := Price(subtotal, how, promo, tip);
      var rate := if promo.Some? then promo.value.discount else 0.0;
      p.total == subtotal * (1.0 - rate) * 1.14 + p.deliveryFee + tip
      && p.total >= p.deliveryFee + tip
      && 0 <= p.points && p.points as real <= p.total * 10.0 < p.points as real + 1.0
  {
    var rate := if promo.Some? then promo.value.discount else 0.0;
    assert 0.0 <= rate <= 0.5;
    assert subtotal * rate <= subtotal;
  }

  /** A bigger discount rate never raises the total. */
  lemma DiscountLowersTotal(subtotal: real, how: DeliveryMethod, a: AppliedCode, b: AppliedCode, tip: real)
    requires subtotal >= 0.0 && a.discount <= b.discount
    ensures Price(subtotal, how, Some(b), tip).total <= Price(subtotal, how, Some(a), tip).total
  {
    assert subtotal * a.discount <= subtotal * b.discount;
  }

  /** FREESHIP carries a zero rate: the delivery fee is still charged and the total is as with no code. */
  lemma FreeShipChangesNothing(subtotal: real, code: string, tip: real)
    ensures Price(subtotal, Delivery, Some(AppliedCode(code, 0.0)), tip) == Price(subtotal, Delivery, None, tip)
    ensures Price(subtotal, Delivery, Some(AppliedCode(code, 0.0)), tip).deliveryFee == 25.0
  {
  }

  /**
   * handleApplyPromo: a blank field changes nothing; otherwise the upper-cased
   * (not trimmed) text selects WELCOME50 or LUNCH20, FREESHIP only for
   * delivery (refused, with nothing changed, for pickup), and any other text
   * clears the applied code.
   */
  function PromoAfter(input: string, how: DeliveryMethod, applied: Option<AppliedCode>): (r: Option<AppliedCode>)
    ensures IsBlank(input) ==> r == applied
    ensures KnownRate(applied) ==> KnownRate(r)
    ensures r != applied ==> r.None? || r.value.code == Upper(input)
  {
    if IsBlank(input) then applied
    else
      var code := Upper(input);
      if code == "WELCOME50" then Some(AppliedCode(code, 0.5))
      else if code == "LUNCH20" then Some(AppliedCode(code, 0.2))
      else if code == "FREESHIP" then (if how != Delivery then applied else Some(AppliedCode(code, 0.0)))
      else None
  }

  /** Codes are matched without regard to letter case. */
  lemma PromoIgnoresCase(input: string, how: DeliveryMethod, applied: Option<AppliedCode>)
    ensures PromoAfter(Lower(input), how, applied) == PromoAfter(input, how, applied)
  {
    assert Upper(Lower(input)) == Upper(input);
    LowerKeepsBlank(input);
  }

  /** Surrounding spaces are not trimmed before matching: " WELCOME50" is an invalid code. */
  lemma PaddedCodeRejected(how: DeliveryMethod, applied: Option<AppliedCode>)
    ensures PromoAfter(" WELCOME50", how, applied) == None
  {
    assert !IsSpace('W');
    assert " WELCOME50"[1] == 'W';
    BlankIffAllSpace(" WELCOME50");
    assert Upper(" WELCOME50") != "WELCOME50" by {
      assert Upper(" WELCOME50")[0] == ' ';
    }
  }

  /** `ord-` and the last six digits of the clock. */
  function OrderId(n: nat): string
  {
    var digits := NatToString(n);
    "ord-" + (if |digits| <= 6 then digits else digits[|digits| - 6..])
  }

  /** The order onSubmit builds (lines 124-137). */
  function PlacedOrder(u: User, cart: seq<CartItem>, how: DeliveryMethod, payment: PaymentMethod,
                       tip: real, total: real, address: string, city: string, id: string, date: string): (o: Order)
    ensures o.status == Placed && o.total == total && o.items == cart && o.userId == u.id
    ensures o.restaurantId == (if |cart| > 0 then cart[0].restaurantId else None)
    ensures o.deliveryAddress.Some? <==> how == Delivery
    ensures !o.isDisputed && o.disputeStatus.None?
  {
    Order(id, u.id, if |cart| > 0 then cart[0].restaurantId else None, date, Placed, total, cart,
          Some(how), Some(payment), tip,
          if how == Delivery then Some(address + ", " + city) else None,
          u.name, false, None, None)
  }

  class CheckoutPage {
    var deliveryMethod: DeliveryMethod
    var paymentMethod: PaymentMethod
    var tip: real
    var promoCode: string
    var appliedPromo: Option<AppliedCode>
    /** Stands for `Date.now()` in the order id. */
    var clock: nat
    const session: SessionStore
    const store: DataStore

    constructor (session: SessionStore, store: DataStore)
      ensures this.session == session && this.store == store
      ensures deliveryMethod == Delivery && paymentMethod == Cash && tip == 0.0
      ensures promoCode == "" && appliedPromo == None && clock == 0
    {
      this.session := session;
      this.store := store;
      deliveryMethod, paymentMethod, tip := Delivery, Cash, 0.0;
      promoCode, appliedPromo, clock := "", None, 0;
    }

    function Pricing(): Pricing
      reads this`deliveryMethod, this`appliedPromo, this`tip, this.session`cart
    {
      Price(CartTotal(session.cart), deliveryMethod, appliedPromo, tip)
    }

    method ApplyPromo()
      modifies this`appliedPromo
      ensures appliedPromo == PromoAfter(promoCode, deliveryMethod, old(appliedPromo))
    {
      appliedPromo := PromoAfter(promoCode, deliveryMethod, appliedPromo);
    }

    /**
     * onSubmit. Without a user, or paying by wallet with a balance below the
     * total, nothing changes. Otherwise: the wallet is debited (wallet
     * payments only), the order goes to the front of the shared store's
     * orders with a new-order notice for the partners, the points are added
     * to the session user, and the cart is emptied.
     */
    method Submit(address: string, city: string, date: string)
      modifies this`clock, session`user, session`clock, session`cart
      modifies store`orders, store`notifications, store`users, store.db`data, store.db`clock
      ensures var p := old(Pricing());
        var before := old(session.user);
        if before.None? || (paymentMethod == Wallet && before.value.walletBalance < p.total) then
          session.user == before && session.cart == old(session.cart)
          && store.db.data == old(store.db.data) && store.orders == old(store.orders)
          && clock == old(clock)
        else
          var u := before.value;
          var o := PlacedOrder(u, old(session.cart), deliveryMethod, paymentMethod, tip, p.total,
                               address, city, OrderId(old(clock)), date);
          var paid := if paymentMethod == Wallet
                      then Debited(u, p.total, DebitTx(FreshId("tx-", old(session.clock)), p.total, date, "Order #" + IdSuffix(o.id)))
                      else u;
          session.user == Some(paid.(loyaltyPoints := paid.loyaltyPoints + p.points))
          && session.cart == []
          && store.db.data.orders == Some([o] + Read(old(store.db.data).orders))
          && Read(store.db.data.notifications) ==
               [StampNotification(NewOrderNotice(o), FreshId("n-", old(store.db.clock)))] + Read(old(store.db.data).notifications)
          && clock == old(clock) + 1
    {
      var p := Pricing();
      if session.user.None? {
        return;
      }
      var u := session.user.value;
      if paymentMethod == Wallet && u.walletBalance < p.total {
        return;
      }
      Place(u, p, address, city, date);
    }

    /** onSubmit past its two guards: u is the session user and can pay the breakdown p. */
    method Place(u: User, p: Pricing, address: string, city: string, date: string)
      requires session.user == Some(u)
      requires paymentMethod == Wallet ==> u.walletBalance >= p.total
      modifies this`clock, session`user, session`clock, session`cart
      modifies store`orders, store`notifications, store`users, store.db`data, store.db`clock
      ensures var o := PlacedOrder(u, old(session.cart), deliveryMethod, paymentMethod, tip, p.total,
                                   address, city, OrderId(old(clock)), date);
        var paid := if paymentMethod == Wallet
                    then Debited(u, p.total, DebitTx(FreshId("tx-", old(session.clock)), p.total, date, "Order #" + IdSuffix(o.id)))
                    else u;
        session.user == Some(paid.(loyaltyPoints := paid.loyaltyPoints + p.points))
        && session.cart == []
        && store.db.data.orders == Some([o] + Read(old(store.db.data).orders))
        && Read(store.db.data.notifications) ==
             [StampNotification(NewOrderNotice(o), FreshId("n-", old(store.db.clock)))] + Read(old(store.db.data).notifications)
        && clock == old(clock) + 1
    {
      var o := PlacedOrder(u, session.cart, deliveryMethod, paymentMethod, tip, p.total,
                           address, city, OrderId(clock), date);
      clock := clock + 1;
      ghost var paid := u;
      if paymentMethod == Wallet {
        var ok := session.DeductWallet(p.total, "Order #" + IdSuffix(o.id), date);
        if !ok {
          // the guards in Submit leave no way for the debit to fail
          assert false;
        }
        paid := Debited(u, p.total, DebitTx(FreshId("tx-", old(session.clock)), p.total, date, "Order #" + IdSuffix(o.id)));
      }
      assert session.user == Some(paid);
      Record(o, p.points);
    }

    /** onSubmit's last steps: addOrder, then accruePoints for the session user, then clearCart. */
    method Record(o: Order, points: int)
      requires session.user.Some?
      modifies session`user, session`cart
      modifies store`orders, store`notifications, store`users, store.db`data, store.db`clock
      ensures session.user == Some(old(session.user).value.(loyaltyPoints := old(session.user).value.loyaltyPoints + points))
      ensures session.cart == []
      ensures store.db.data.orders == Some([o] + Read(old(store.db.data).orders))
      ensures Read(store.db.data.notifications) ==
        [StampNotification(NewOrderNotice(o), FreshId("n-", old(store.db.clock)))] + Read(old(store.db.data).notifications)
    {
      var _ := store.AddOrder(o);
      session.AccruePoints(points);
      session.ClearCart();
    }
  }
}
