// The global search panel (components/organisms/SearchOverlay.tsx, lines
// 30-52 and 73): up to three meals, restaurants and chefs that include the
// typed text.
module SearchOverlay {
  import opened Types
  import opened Text
  import opened Lists

  predicate AnyContains(xs: seq<string>, needle: string)
  {
    exists i :: 0 <= i < |xs| && Contains(Lower(xs[i]), needle)
  }

  predicate MealHit(q: string, m: MealKit)
  {
    Contains(Lower(m.title), q) || Contains(Lower(m.description), q) || AnyContains(m.tags, q)
  }

  predicate RestaurantHit(q: string, r: Restaurant)
  {
    Contains(Lower(r.name), q) || AnyContains(r.cuisine, q)
  }

  predicate ChefHit(q: string, c: Chef)
  {
    Contains(Lower(c.name), q) || Contains(Lower(c.specialty), q)
  }

  datatype SearchResults = SearchResults(meals: seq<MealKit>, restaurants: seq<Restaurant>, chefs: seq<Chef>)

  /**
   * A blank query finds nothing; otherwise the first three hits of each
   * list, matched against the lower-cased query as typed (not trimmed).
   */
  function Results(query: string, kits: seq<MealKit>, restaurants: seq<Restaurant>, chefs: seq<Chef>): SearchResults
  {
    if Trim(query) == "" then SearchResults([], [], [])
    else
      var q := Lower(query);
      SearchResults(
        Take(Filter(kits, (m: MealKit) => MealHit(q, m)), 3),
        Take(Filter(restaurants, (r: Restaurant) => RestaurantHit(q, r)), 3),
        Take(Filter(chefs, (c: Chef) => ChefHit(q, c)), 3))
  }

  /** The 'no results' panel shows when all three lists are empty. */
  predicate HasResults(s: SearchResults)
  {
    |s.meals| > 0 || |s.restaurants| > 0 || |s.chefs| > 0
  }

  /** A query of spaces only finds nothing. */
  lemma BlankFindsNothing(query: string, kits: seq<MealKit>, restaurants: seq<Restaurant>, chefs: seq<Chef>)
    requires forall i :: 0 <= i < |query| ==> IsSpace(query[i])
    ensures !HasResults(Results(query, kits, restaurants, chefs))
  {
    BlankIffAllSpace(query);
  }

  /** `shown` is the first min(3, hits) hits of `all`, in catalogue order. */
  ghost predicate FirstThree<T>(shown: seq<T>, all: seq<T>, hit: T -> bool)
  {
    var hits := Filter(all, hit);
    |shown| == (if |hits| < 3 then |hits| else 3) && shown == hits[..|shown|]
  }

  /**
   * Each list holds min(3, hits) entries, each a hit from the catalogue,
   * and they are the catalogue's first hits in catalogue order.
   */
  lemma ResultsAreFirstHits(query: string, kits: seq<MealKit>, restaurants: seq<Restaurant>, chefs: seq<Chef>)
    requires Trim(query) != ""
    ensures var res := Results(query, kits, restaurants, chefs);
      var q := Lower(query);
      |res.meals| <= 3 && |res.restaurants| <= 3 && |res.chefs| <= 3
      && (forall i :: 0 <= i < |res.meals| ==> res.meals[i] in kits && MealHit(q, res.meals[i]))
      && (forall i :: 0 <= i < |res.restaurants| ==> res.restaurants[i] in restaurants && RestaurantHit(q, res.restaurants[i]))
      && (forall i :: 0 <= i < |res.chefs| ==> res.chefs[i] in chefs && ChefHit(q, res.chefs[i]))
      && FirstThree(res.meals, kits, (m: MealKit) => MealHit(q, m))
      && FirstThree(res.restaurants, restaurants, (r: Restaurant) => RestaurantHit(q, r))
      && FirstThree(res.chefs, chefs, (c: Chef) => ChefHit(q, c))
  {
    var q := Lower(query);
    var res := Results(query, kits, restaurants, chefs);
    var ms := Filter(kits, (m: MealKit) => MealHit(q, m));
    assert res.meals == Take(ms, 3);
    forall i | 0 <= i < |res.meals| ensures res.meals[i] in kits && MealHit(q, res.meals[i]) {
      assert res.meals[i] == ms[i];
    }
    var rs := Filter(restaurants, (r: Restaurant) => RestaurantHit(q, r));
    forall i | 0 <= i < |res.restaurants| ensures res.restaurants[i] in restaurants && RestaurantHit(q, res.restaurants[i]) {
      assert res.restaurants[i] == rs[i];
    }
    var cs := Filter(chefs, (c: Chef) => ChefHit(q, c));
    forall i | 0 <= i < |res.chefs| ensures res.chefs[i] in chefs && ChefHit(q, res.chefs[i]) {
      assert res.chefs[i] == cs[i];
    }
  }

  /**
   * For a non-blank query 'no results' means that no meal, restaurant or
   * chef in the catalogue matches: the cap of three never empties a list.
   */
  lemma NoResultsMeansNoHits(query: string, kits: seq<MealKit>, restaurants: seq<Restaurant>, chefs: seq<Chef>)
    requires Trim(query) != ""
    ensures !HasResults(Results(query, kits, restaurants, chefs)) <==>
      (forall i :: 0 <= i < |kits| ==> !MealHit(Lower(query), kits[i]))
      && (forall i :: 0 <= i < |restaurants| ==> !RestaurantHit(Lower(query), restaurants[i]))
      && (forall i :: 0 <= i < |chefs| ==> !ChefHit(Lower(query), chefs[i]))
  {
    var q := Lower(query);
    var mp := (m: MealKit) => MealHit(q, m);
    var rp := (r: Restaurant) => RestaurantHit(q, r);
    var cp := (c: Chef) => ChefHit(q, c);
    assert Results(query, kits, restaurants, chefs)
      == SearchResults(Take(Filter(kits, mp), 3), Take(Filter(restaurants, rp), 3), Take(Filter(chefs, cp), 3));
    FilterEmptyIff(kits, mp);
    FilterEmptyIff(restaurants, rp);
    FilterEmptyIff(chefs, cp);
  }
}
