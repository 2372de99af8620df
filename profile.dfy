// The customer's profile page (features/profile/ProfilePage.tsx): the order
// history, the 'Report Issue' guard, 'Reorder All', the address form and
// the saved-card list.
module Profile {
  import opened Types
  import opened Text
  import opened Lists
  import opened MockApi
  import opened DataStore
  import opened Session

  function OwnedBy(u: User): Order -> bool
  {
    (o: Order) => o.userId == u.id
  }

  /** The history tab: the user's orders, in store order. */
  function OrderHistory(orders: seq<Order>, u: User): seq<Order>
  {
    Filter(orders, OwnedBy(u))
  }

  lemma OrderHistoryExact(orders: seq<Order>, u: User, o: Order)
    ensures o in OrderHistory(orders, u) <==> o in orders && o.userId == u.id
  {
    if o in orders {
      var i :| 0 <= i < |orders| && orders[i] == o;
    }
  }

  /** 'Report Issue' shows on orders that are neither disputed nor cancelled. */
  predicate ReportOffered(o: Order)
  {
    !o.isDisputed && o.status != Cancelled
  }

  /** Once filed, a dispute is not offered again: an order is reported at most once from here. */
  lemma ReportedOnce(o: Order, reason: string)
    requires ReportOffered(o)
    ensures !ReportOffered(Disputed(o, reason))
    ensures Disputed(o, reason).status == o.status
  {
  }

  /** An order line handed back to addToCart. */
  function AsInput(line: CartItem): CartInput
  {
    CartInput(line.id, line.title, line.price, line.image, Some(line.quantity),
              line.restaurantName, line.restaurantId, Some(line.selectedOptions), Some(line.instructions))
  }

  /** The cart and the id clock together. */
  datatype CartState = CartState(cart: seq<CartItem>, clock: nat)

  /** One addToCart, as the session store does it. */
  function AddOne(s: CartState, line: CartItem): CartState
  {
    var item := AsInput(line);
    CartState(AddedToCart(s.cart, item, CartLineId(item.id, s.clock)),
              s.clock + (if FindFirst(s.cart, SameLine(item)).None? then 1 else 0))
  }

  /** handleReorder: every line of the order through addToCart, first to last. */
  function Reordered(s: CartState, lines: seq<CartItem>): CartState
    decreases |lines|
  {
    if lines == [] then s else Reordered(AddOne(s, lines[0]), lines[1..])
  }

  lemma AddOneLength(s: CartState, line: CartItem)
    ensures |s.cart| <= |AddOne(s, line).cart| <= |s.cart| + 1
  {
    var item := AsInput(line);
    match FindFirst(s.cart, SameLine(item)) {
      case Some(k) =>
        assert |AddQuantity(SortExamined(s.cart, k + 1, item.id), s.cart[k].cartId, QuantityOr1(item.quantity))| == |s.cart|;
      case None =>
    }
  }

  /**
   * Reordering never drops a cart line, and adds at most one line per
   * order line: lines that match an existing line merge into it.
   */
  lemma {:induction false} ReorderedLength(s: CartState, lines: seq<CartItem>)
    ensures |s.cart| <= |Reordered(s, lines).cart| <= |s.cart| + |lines|
    decreases |lines|
  {
    if lines != [] {
      AddOneLength(s, lines[0]);
      ReorderedLength(AddOne(s, lines[0]), lines[1..]);
    }
  }

  /** The cards the page starts with. */
  datatype SavedCard = SavedCard(id: nat, last4: string, brand: string, exp: string)

  const SeedCards: seq<SavedCard> := [SavedCard(1, "4242", "Visa", "12/25"), SavedCard(2, "8833", "Mastercard", "09/24")]

  /** handleAddCard's card: a Visa expiring 01/28 with the given id and four digits. */
  function NewCard(id: nat, digits: nat): SavedCard
  {
    SavedCard(id, NatToString(digits), "Visa", "01/28")
  }

  function CardIdIsNot(id: nat): SavedCard -> bool
  {
    (c: SavedCard) => c.id != id
  }

  /** handleRemoveCard: every card with that id goes, the others stay in order. */
  function WithoutCard(cards: seq<SavedCard>, id: nat): (r: seq<SavedCard>)
    ensures forall i :: 0 <= i < |r| ==> r[i].id != id
    ensures forall i :: 0 <= i < |cards| && cards[i].id != id ==> cards[i] in r
  {
    Filter(cards, CardIdIsNot(id))
  }

  /** Removing a card just added under a fresh id gives back the list from before. */
  lemma AddThenRemoveCard(cards: seq<SavedCard>, c: SavedCard)
    requires forall i :: 0 <= i < |cards| ==> cards[i].id != c.id
    ensures WithoutCard(cards + [c], c.id) == cards
  {
    FilterAppend(cards, [c], CardIdIsNot(c.id));
    FilterAll(cards, CardIdIsNot(c.id));
    assert Filter([c], CardIdIsNot(c.id)) == [] + Filter([c][1..], CardIdIsNot(c.id));
  }

  /** The address form submits only with both fields filled. */
  predicate AddressComplete(title: string, value: string)
  {
    title != "" && value != ""
  }

  class ProfilePage {
    var addressLabel: string
    var addressValue: string
    var addressFormOpen: bool
    var savedCards: seq<SavedCard>
    /** Stands for `Date.now()` in new card ids; starts past the seeded ids. */
    var clock: nat
    const session: SessionStore

    constructor (session: SessionStore)
      ensures this.session == session
      ensures addressLabel == "" && addressValue == "" && !addressFormOpen
      ensures savedCards == SeedCards && clock == 3
    {
      this.session := session;
      addressLabel, addressValue, addressFormOpen := "", "", false;
      savedCards := SeedCards;
      clock := 3;
    }

    /** The two form fields (typing into the address modal). */
    method EditAddress(title: string, value: string)
      modifies this`addressLabel, this`addressValue, this`addressFormOpen
      ensures addressLabel == title && addressValue == value && addressFormOpen
    {
      addressLabel, addressValue, addressFormOpen := title, value, true;
    }

    /**
     * handleAddAddress: with both fields filled, the address goes to the
     * session user and the form is cleared and closed; otherwise nothing
     * changes.
     */
    method SubmitAddress()
      modifies this`addressLabel, this`addressValue, this`addressFormOpen, session`user, session`clock
      ensures !AddressComplete(old(addressLabel), old(addressValue)) ==>
        addressLabel == old(addressLabel) && addressValue == old(addressValue)
        && addressFormOpen == old(addressFormOpen)
        && session.user == old(session.user) && session.clock == old(session.clock)
      ensures AddressComplete(old(addressLabel), old(addressValue)) ==>
        addressLabel == "" && addressValue == "" && !addressFormOpen
        && (old(session.user).None? ==> session.user == old(session.user))
        && (old(session.user).Some? ==>
              var a := Address(FreshId("a-", old(session.clock)), old(addressLabel), old(addressValue));
              session.user == Some(old(session.user).value.(addresses := old(session.user).value.addresses + [a])))
    {
      if AddressComplete(addressLabel, addressValue) {
        session.AddAddress(addressLabel, addressValue);
        addressFormOpen := false;
        addressLabel, addressValue := "", "";
      }
    }

    /** handleAddCard: `digits` is the random four-digit number. */
    method AddCard(digits: nat)
      requires 1000 <= digits <= 9999
      modifies this`savedCards, this`clock
      ensures savedCards == old(savedCards) + [NewCard(old(clock), digits)]
      ensures |savedCards[|savedCards| - 1].last4| == 4
      ensures clock == old(clock) + 1
    {
      savedCards := savedCards + [NewCard(clock, digits)];
      clock := clock + 1;
      FourDigits(digits);
    }

    method RemoveCard(id: nat)
      modifies this`savedCards
      ensures savedCards == WithoutCard(old(savedCards), id)
    {
      savedCards := WithoutCard(savedCards, id);
    }

    /** handleReorder: each line of the order through addToCart, in order. */
    method Reorder(lines: seq<CartItem>)
      modifies session`cart, session`clock
      ensures CartState(session.cart, session.clock) == Reordered(CartState(old(session.cart), old(session.clock)), lines)
    {
      var i := 0;
      while i < |lines|
        invariant 0 <= i <= |lines|
        invariant Reordered(CartState(session.cart, session.clock), lines[i..])
               == Reordered(CartState(old(session.cart), old(session.clock)), lines)
      {
        var before := CartState(session.cart, session.clock);
        ReorderedStep(before, lines, i);
        session.AddToCart(AsInput(lines[i]));
        assert CartState(session.cart, session.clock) == AddOne(before, lines[i]);
        i := i + 1;
      }
    }
  }

  lemma ReorderedStep(s: CartState, lines: seq<CartItem>, i: nat)
    requires i < |lines|
    ensures Reordered(s, lines[i..]) == Reordered(AddOne(s, lines[i]), lines[i + 1..])
  {
    assert lines[i..][0] == lines[i] && lines[i..][1..] == lines[i + 1..];
  }

  /** A four-digit number is written with four characters. */
  lemma FourDigits(n: nat)
    requires 1000 <= n <= 9999
    ensures |NatToString(n)| == 4
  {
    assert NatToString(n) == NatToString(n / 10) + [DigitChar(n % 10)];
    assert NatToString(n / 10) == NatToString(n / 100) + [DigitChar(n / 10 % 10)];
    assert NatToString(n / 100) == NatToString(n / 1000) + [DigitChar(n / 100 % 10)];
  }
}
