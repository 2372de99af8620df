// A restaurant's page (features/restaurant/RestaurantPage.tsx, lines 21-62):
// the restaurant and its reviews, the category tabs, the menu under the
// chosen tab, and the cart line built from the product dialog's choice.
module RestaurantPage {
  import opened Types
  import opened Lists
  import opened Session
  import MockApi

  /** The route's restaurant; None shows 'Restaurant not found'. */
  function FindRestaurant(restaurants: seq<Restaurant>, id: string): (r: Option<Restaurant>)
    ensures r.None? <==> forall k :: 0 <= k < |restaurants| ==> restaurants[k].id != id
    ensures r.Some? ==> r.value in restaurants && r.value.id == id
  {
    match FindFirst(restaurants, MockApi.RestaurantIdIs(id))
    case Some(k) => Some(restaurants[k])
    case None => None
  }

  function ReviewTargetIs(id: string): Review -> bool
  {
    (r: Review) => r.targetId == id
  }

  /** The reviews tab's list: the reviews aimed at this restaurant's id. */
  function RestaurantReviews(reviews: seq<Review>, id: string): (r: seq<Review>)
    ensures forall i :: 0 <= i < |r| ==> r[i] in reviews && r[i].targetId == id
    ensures forall i :: 0 <= i < |reviews| && reviews[i].targetId == id ==> reviews[i] in r
  {
    Filter(reviews, ReviewTargetIs(id))
  }

  /** The position of the first occurrence of y. */
  function FirstAt(xs: seq<string>, y: string): (r: nat)
    requires y in xs
    ensures r < |xs| && xs[r] == y && forall j :: 0 <= j < r ==> xs[j] != y
  {
    if xs[0] == y then 0 else 1 + FirstAt(xs[1..], y)
  }

  /**
   * `Array.from(new Set(xs))`: each value once, in the order of its first
   * appearance.
   */
  function Distinct(xs: seq<string>): (r: seq<string>)
    ensures forall y :: y in r <==> y in xs
    ensures forall i, j :: 0 <= i < j < |r| ==> r[i] != r[j]
    ensures forall i, j :: 0 <= i < j < |r| ==> FirstAt(xs, r[i]) < FirstAt(xs, r[j])
  {
    if xs == [] then []
    else
      var p := xs[..|xs| - 1];
      var x := xs[|xs| - 1];
      assert xs == p + [x];
      var d := Distinct(p);
      FirstAtExtend(p, x);
      if x in d then d else d + [x]
  }

  /** Adding an element at the end leaves every earlier first occurrence where it was. */
  lemma FirstAtExtend(p: seq<string>, x: string)
    ensures forall y :: y in p ==> FirstAt(p + [x], y) == FirstAt(p, y) < |p|
    ensures x !in p ==> FirstAt(p + [x], x) == |p|
  {
    forall y | y in p ensures FirstAt(p + [x], y) == FirstAt(p, y) {
      var k := FirstAt(p, y);
      var r := FirstAt(p + [x], y);
      assert (p + [x])[k] == y;
    }
  }

  function Category(item: MenuItem): string
  {
    item.category
  }

  /** The category tabs: 'All', then each category of the menu once, in menu order. */
  function Tabs(menu: Option<seq<MenuItem>>): seq<string>
  {
    var m := match menu case Some(items) => items case None => [];
    ["All"] + Distinct(seq(|m|, i requires 0 <= i < |m| => m[i].category))
  }

  /**
   * After 'All' there is a tab for every category on the menu and for
   * nothing else, each once, in the order the categories first appear.
   */
  lemma TabsExact(menu: seq<MenuItem>)
    ensures Tabs(Some(menu))[0] == "All"
    ensures forall c :: c in Tabs(Some(menu))[1..] <==> exists i :: 0 <= i < |menu| && menu[i].category == c
    ensures forall i, j :: 1 <= i < j < |Tabs(Some(menu))| ==> Tabs(Some(menu))[i] != Tabs(Some(menu))[j]
    ensures Tabs(None) == ["All"]
  {
    var cats := seq(|menu|, i requires 0 <= i < |menu| => menu[i].category);
    assert Tabs(Some(menu))[1..] == Distinct(cats);
    forall c ensures c in Distinct(cats) <==> exists i :: 0 <= i < |menu| && menu[i].category == c {
      if c in cats {
        var i :| 0 <= i < |cats| && cats[i] == c;
        assert menu[i].category == c;
      }
      if exists i :: 0 <= i < |menu| && menu[i].category == c {
        var i :| 0 <= i < |menu| && menu[i].category == c;
        assert cats[i] == c;
      }
    }
  }

  function CategoryIs(c: string): MenuItem -> bool
  {
    (item: MenuItem) => item.category == c
  }

  /** filteredMenu: the whole menu under 'All', otherwise that category's items. */
  function FilteredMenu(menu: Option<seq<MenuItem>>, active: string): Option<seq<MenuItem>>
  {
    if active == "All" then menu
    else match menu
      case Some(items) => Some(Filter(items, CategoryIs(active)))
      case None => None
  }

  /** Under a category tab exactly the menu's items of that category show, in menu order. */
  lemma FilteredMenuExact(menu: seq<MenuItem>, active: string)
    ensures active == "All" ==> FilteredMenu(Some(menu), active) == Some(menu)
    ensures active != "All" ==>
      (FilteredMenu(Some(menu), active).Some?
       && forall item :: item in FilteredMenu(Some(menu), active).value <==> item in menu && item.category == active)
  {
    if active != "All" {
      forall item | item in menu && item.category == active ensures item in Filter(menu, CategoryIs(active)) {
        var i :| 0 <= i < |menu| && menu[i] == item;
      }
    }
  }

  /** handleAddToCart's record: the dialog's item, quantity, options and notes with this restaurant. */
  function CartInputOf(r: Restaurant, item: MenuItem, quantity: int, options: seq<string>, notes: string): CartInput
  {
    CartInput(item.id, item.name, item.price, item.image, Some(quantity), Some(r.name), Some(r.id), Some(options), Some(notes))
  }

  /**
   * When the cart has no matching line, the new line carries the item's id,
   * name, price and image, this restaurant, the chosen quantity (at least
   * one from the dialog) and the notes.
   */
  lemma AddedLineCopiesFields(cart: seq<CartItem>, r: Restaurant, item: MenuItem, quantity: int,
                              options: seq<string>, notes: string, cartId: string)
    requires quantity >= 1 && r.name != ""
    requires FindFirst(cart, SameLine(CartInputOf(r, item, quantity, options, notes))).None?
    ensures var c := AddedToCart(cart, CartInputOf(r, item, quantity, options, notes), cartId);
      |c| == |cart| + 1
      && c[|cart|].id == item.id && c[|cart|].title == item.name && c[|cart|].price == item.price
      && c[|cart|].image == item.image && c[|cart|].quantity == quantity
      && c[|cart|].restaurantName == Some(r.name) && c[|cart|].restaurantId == Some(r.id)
      && c[|cart|].instructions == notes && c[|cart|].cartId == cartId
  {
  }
}
