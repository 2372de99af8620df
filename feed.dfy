// The feed's result lists (features/feed/FeedPage.tsx, lines 41-105): the
// search, category, price, rating and dietary tests applied to the meal kits
// and the restaurants, then the optional sort.
module Feed {
  import opened Types
  import opened Text
  import opened Lists
  import opened Sorting
  import opened FilterModal

  datatype Category = Category(id: string, title: string)

  /** The category strip (data/constants.ts). */
  const Categories: seq<Category> := [
    Category("trending", "Trending"), Category("oriental", "Oriental Grills"),
    Category("koshari", "Koshari"), Category("street_food", "Street Food"),
    Category("seafood", "Seafood"), Category("bakery", "Feteer & Bakery"),
    Category("dessert", "Oriental Sweets"), Category("home_cooking", "Home Cooking")]

  function CategoryIdIs(id: string): Category -> bool
  {
    (c: Category) => c.id == id
  }

  /** The lower-cased label of the category with that id, if there is one. */
  function CategoryLabel(id: string): Option<string>
  {
    match FindFirst(Categories, CategoryIdIs(id))
    case Some(k) => Some(Lower(Categories[k].title))
    case None => None
  }

  predicate AnyContains(xs: seq<string>, needle: string)
  {
    exists i :: 0 <= i < |xs| && Contains(Lower(xs[i]), needle)
  }

  /**
   * matchesCategory: the ids trending, popular and near_me, and ids with no
   * category, let everything through; otherwise a tag or cuisine must
   * include the category's lower-cased label.
   */
  predicate MatchesCategory(active: string, tags: seq<string>, cuisine: seq<string>)
  {
    if active == "trending" || active == "popular" || active == "near_me" then true
    else match CategoryLabel(active)
      case None => true
      case Some(name) => AnyContains(tags, name) || AnyContains(cuisine, name)
  }

  /** The price symbol estimated for a kit from its price. */
  function Bucket(price: real): (r: string)
    ensures 1 <= |r| <= 4 && forall i :: 0 <= i < |r| ==> r[i] == '$'
  {
    if price < 15.0 then "$" else if price < 25.0 then "$$" else if price < 40.0 then "$$$" else "$$$$"
  }

  /** A dearer kit never gets a cheaper symbol. */
  lemma BucketMonotone(a: real, b: real)
    requires a <= b
    ensures |Bucket(a)| <= |Bucket(b)|
  {
  }

  /** The symbol compared with the price filter: the record's own when it is non-empty. */
  function PriceSymbol(given: string, price: real): string
  {
    if given != "" then given else Bucket(price)
  }

  predicate RatingFilterOn(f: FilterState)
  {
    f.minRating.Some? && f.minRating.value != 0.0
  }

  predicate HasDiet(tags: seq<string>, diet: string)
  {
    exists i :: 0 <= i < |tags| && Lower(tags[i]) == Lower(diet)
  }

  /** matchesAdvancedFilters. */
  predicate MatchesAdvanced(f: FilterState, symbol: string, rating: real, tags: seq<string>)
  {
    (|f.priceRange| == 0 || symbol in f.priceRange)
    && !(RatingFilterOn(f) && rating < f.minRating.value)
    && (|f.dietary| == 0 || forall k :: 0 <= k < |f.dietary| ==> HasDiet(tags, f.dietary[k]))
  }

  /** The rating every kit is given for the minimum-rating test. */
  const KitRating: real := 4.8

  predicate KitShown(query: string, active: string, f: FilterState, kit: MealKit)
  {
    (Contains(Lower(kit.title), query) || Contains(Lower(kit.description), query))
    && MatchesCategory(active, kit.tags, [])
    && MatchesAdvanced(f, PriceSymbol("", kit.price), KitRating, kit.tags)
  }

  predicate RestaurantShown(query: string, active: string, f: FilterState, r: Restaurant)
  {
    (Contains(Lower(r.name), query) || AnyContains(r.cuisine, query))
    && MatchesCategory(active, [], r.cuisine)
    && MatchesAdvanced(f, PriceSymbol(r.priceRange, 0.0), r.rating, r.cuisine)
  }

  function KitPrice(k: MealKit): real
  {
    k.price
  }

  /** Descending by rating, as an ascending sort on the negated rating. */
  function NegatedRating(r: Restaurant): real
  {
    -r.rating
  }

  datatype FeedResults = FeedResults(mealKits: seq<MealKit>, restaurants: seq<Restaurant>)

  /** filteredData: the search text is lower-cased (not trimmed); at most one list is sorted. */
  function Results(kits: seq<MealKit>, restaurants: seq<Restaurant>, search: string, active: string, f: FilterState): FeedResults
  {
    var query := Lower(search);
    var ks := Filter(kits, (k: MealKit) => KitShown(query, active, f, k));
    var rs := Filter(restaurants, (r: Restaurant) => RestaurantShown(query, active, f, r));
    if f.sortBy == "price: low to high" then FeedResults(SortByKey(ks, KitPrice), rs)
    else if f.sortBy == "rating" then FeedResults(ks, SortByKey(rs, NegatedRating))
    else FeedResults(ks, rs)
  }

  /**
   * The kits shown are exactly the catalogue's kits that pass every test,
   * each as often as in the catalogue; under 'price: low to high' they are
   * cheapest first, and otherwise in catalogue order.
   */
  lemma KitsExact(kits: seq<MealKit>, restaurants: seq<Restaurant>, search: string, active: string, f: FilterState)
    ensures var shown := Filter(kits, (k: MealKit) => KitShown(Lower(search), active, f, k));
      multiset(Results(kits, restaurants, search, active, f).mealKits) == multiset(shown)
      && (f.sortBy == "price: low to high" ==> SortedByKey(Results(kits, restaurants, search, active, f).mealKits, KitPrice))
      && (f.sortBy != "price: low to high" ==> Results(kits, restaurants, search, active, f).mealKits == shown)
    ensures forall k :: k in Results(kits, restaurants, search, active, f).mealKits <==>
      k in kits && KitShown(Lower(search), active, f, k)
  {
    var shown := Filter(kits, (k: MealKit) => KitShown(Lower(search), active, f, k));
    var out := Results(kits, restaurants, search, active, f).mealKits;
    assert out == if f.sortBy == "price: low to high" then SortByKey(shown, KitPrice) else shown;
    SortByKeyCorrect(shown, KitPrice);
    forall k ensures k in out <==> k in shown {
      assert k in out <==> k in multiset(out);
      assert k in shown <==> k in multiset(shown);
    }
  }

  /**
   * Whatever the sort, kits of equal price and restaurants of equal rating
   * stay in catalogue order, as the stable library sort leaves them.
   */
  lemma TiesKeepCatalogueOrder(kits: seq<MealKit>, restaurants: seq<Restaurant>, search: string, active: string, f: FilterState)
    ensures var res := Results(kits, restaurants, search, active, f);
      var ks := Filter(kits, (k: MealKit) => KitShown(Lower(search), active, f, k));
      var rs := Filter(restaurants, (r: Restaurant) => RestaurantShown(Lower(search), active, f, r));
      (forall v :: Filter(res.mealKits, KeyIs(KitPrice, v)) == Filter(ks, KeyIs(KitPrice, v)))
      && (forall v :: Filter(res.restaurants, KeyIs(NegatedRating, v)) == Filter(rs, KeyIs(NegatedRating, v)))
  {
    var ks := Filter(kits, (k: MealKit) => KitShown(Lower(search), active, f, k));
    var rs := Filter(restaurants, (r: Restaurant) => RestaurantShown(Lower(search), active, f, r));
    forall v ensures Filter(SortByKey(ks, KitPrice), KeyIs(KitPrice, v)) == Filter(ks, KeyIs(KitPrice, v)) {
      SortByKeyStable(ks, KitPrice, v);
    }
    forall v ensures Filter(SortByKey(rs, NegatedRating), KeyIs(NegatedRating, v)) == Filter(rs, KeyIs(NegatedRating, v)) {
      SortByKeyStable(rs, NegatedRating, v);
    }
  }

  /**
   * The restaurants shown are exactly those that pass every test; under
   * 'rating' they are best rated first, and otherwise in catalogue order.
   */
  lemma RestaurantsExact(kits: seq<MealKit>, restaurants: seq<Restaurant>, search: string, active: string, f: FilterState)
    ensures var shown := Filter(restaurants, (r: Restaurant) => RestaurantShown(Lower(search), active, f, r));
      multiset(Results(kits, restaurants, search, active, f).restaurants) == multiset(shown)
      && (f.sortBy == "rating" ==> forall i, j :: 0 <= i < j < |Results(kits, restaurants, search, active, f).restaurants| ==>
            Results(kits, restaurants, search, active, f).restaurants[i].rating >= Results(kits, restaurants, search, active, f).restaurants[j].rating)
      && (f.sortBy != "rating" ==> Results(kits, restaurants, search, active, f).restaurants == shown)
    ensures forall r :: r in Results(kits, restaurants, search, active, f).restaurants <==>
      r in restaurants && RestaurantShown(Lower(search), active, f, r)
  {
    var shown := Filter(restaurants, (r: Restaurant) => RestaurantShown(Lower(search), active, f, r));
    var out := Results(kits, restaurants, search, active, f).restaurants;
    if f.sortBy == "price: low to high" {
      assert f.sortBy != "rating" by { assert |f.sortBy| == 18; }
      assert out == shown;
    } else if f.sortBy == "rating" {
      assert out == SortByKey(shown, NegatedRating);
      SortByKeyCorrect(shown, NegatedRating);
      forall i, j | 0 <= i < j < |out| ensures out[i].rating >= out[j].rating {
        assert NegatedRating(out[i]) <= NegatedRating(out[j]);
      }
      forall r ensures r in out <==> r in shown {
        assert r in out <==> r in multiset(out);
        assert r in shown <==> r in multiset(shown);
      }
    } else {
      assert out == shown;
    }
  }

  /** The three ids that are not in the strip, and ids of no category, accept every item. */
  lemma OpenCategories(active: string, tags: seq<string>, cuisine: seq<string>)
    requires active == "trending" || active == "popular" || active == "near_me"
      || forall k :: 0 <= k < |Categories| ==> Categories[k].id != active
    ensures MatchesCategory(active, tags, cuisine)
  {
  }

  /** With the default filters nothing fails the price, rating or dietary test. */
  lemma DefaultFiltersAcceptAll(symbol: string, rating: real, tags: seq<string>)
    ensures MatchesAdvanced(DefaultFilters, symbol, rating, tags)
  {
  }

  /** Kits are rated 4.8, so no minimum the dialog offers ever hides a kit. */
  lemma KitsPassEveryOfferedRating(f: FilterState)
    requires f.minRating.None? || f.minRating.value in RatingOptions
    ensures !(RatingFilterOn(f) && KitRating < f.minRating.value)
  {
  }

  /** Dietary tags match whatever their letter case. */
  lemma DietIgnoresCase(tags: seq<string>, diet: string, i: nat)
    requires i < |tags| && Lower(tags[i]) == Lower(diet)
    ensures HasDiet(tags, Upper(diet)) <== HasDiet(tags, diet)
    ensures HasDiet(tags, diet)
  {
  }

  /**
   * On first load (empty search, trending, default filters) the feed shows
   * the whole catalogue, in catalogue order.
   */
  lemma FirstLoadShowsAll(kits: seq<MealKit>, restaurants: seq<Restaurant>)
    ensures Results(kits, restaurants, "", "trending", DefaultFilters) == FeedResults(kits, restaurants)
  {
    assert Lower("") == "";
    assert DefaultFilters.sortBy != "price: low to high" && DefaultFilters.sortBy != "rating" by {
      assert |DefaultFilters.sortBy| == 11;
    }
    forall i | 0 <= i < |kits| ensures KitShown("", "trending", DefaultFilters, kits[i]) {
      ContainsEmpty(Lower(kits[i].title));
    }
    forall i | 0 <= i < |restaurants| ensures RestaurantShown("", "trending", DefaultFilters, restaurants[i]) {
      ContainsEmpty(Lower(restaurants[i].name));
    }
    FilterAll(kits, (k: MealKit) => KitShown("", "trending", DefaultFilters, k));
    FilterAll(restaurants, (r: Restaurant) => RestaurantShown("", "trending", DefaultFilters, r));
  }
}
