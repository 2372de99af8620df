// The feed's filter dialog (features/feed/components/FilterModal.tsx): the
// filter record and the handlers that build a new one from the old.
module FilterModal {
  import opened Types
  import opened Text
  import opened Lists

  /** FilterState: sort key (lower-cased label), price symbols, dietary labels, minimum rating. */
  datatype FilterState = FilterState(sortBy: string, priceRange: seq<string>, dietary: seq<string>, minRating: Option<real>)

  /** The record handleReset installs, and the feed's initial filters. */
  const DefaultFilters := FilterState("recommended", [], [], None)

  const SortOptions: seq<string> := ["Recommended", "Rating", "Delivery Time", "Price: Low to High"]
  const PriceOptions: seq<string> := ["$", "$$", "$$$", "$$$$"]
  const RatingOptions: seq<real> := [3.5, 4.0, 4.5]
  const DietaryOptions: seq<string> := ["Vegetarian", "Vegan", "Gluten-Free", "Halal", "Paleo"]

  function TogglePrice(f: FilterState, price: string): (r: FilterState)
    ensures r == f.(priceRange := r.priceRange)
    ensures price in r.priceRange <==> price !in f.priceRange
  {
    f.(priceRange := Toggle(f.priceRange, price))
  }

  function ToggleDietary(f: FilterState, diet: string): (r: FilterState)
    ensures r == f.(dietary := r.dietary)
    ensures diet in r.dietary <==> diet !in f.dietary
  {
    f.(dietary := Toggle(f.dietary, diet))
  }

  /** A rating button: picking the current minimum clears it, any other sets it. */
  function PickRating(f: FilterState, rating: real): (r: FilterState)
    ensures r == f.(minRating := r.minRating)
    ensures r.minRating == Some(rating) <==> f.minRating != Some(rating)
    ensures r.minRating.None? <==> f.minRating == Some(rating)
  {
    f.(minRating := if f.minRating == Some(rating) then None else Some(rating))
  }

  /** The same rating button twice restores the filter when it was unset or set to that rating. */
  lemma PickRatingTwice(f: FilterState, rating: real)
    requires f.minRating.None? || f.minRating == Some(rating)
    ensures PickRating(PickRating(f, rating), rating) == f
  {
  }

  /** A sort radio stores its label lower-cased. */
  function PickSort(f: FilterState, option: string): (r: FilterState)
    ensures r == f.(sortBy := r.sortBy)
    ensures |r.sortBy| == |option|
  {
    f.(sortBy := Lower(option))
  }

  /** The radio shown as selected: the option whose lower-cased label is the stored key. */
  predicate SortSelected(f: FilterState, option: string)
  {
    f.sortBy == Lower(option)
  }

  /**
   * The radio just picked is the one shown as selected, and picking the
   * labels the feed sorts on stores the keys the feed compares with.
   */
  lemma PickSortSelects(f: FilterState, option: string)
    ensures SortSelected(PickSort(f, option), option)
    ensures PickSort(f, "Price: Low to High").sortBy == "price: low to high"
    ensures PickSort(f, "Rating").sortBy == "rating"
    ensures PickSort(f, "Recommended").sortBy == DefaultFilters.sortBy
  {
  }

  function Reset(f: FilterState): (r: FilterState)
    ensures r.sortBy == "recommended" && r.priceRange == [] && r.dietary == [] && r.minRating.None?
  {
    DefaultFilters
  }

  /** The feed's filter button carries a mark when a price, dietary or rating filter is on. */
  predicate MarkShown(f: FilterState)
  {
    |f.dietary| > 0 || |f.priceRange| > 0 || (f.minRating.Some? && f.minRating.value != 0.0)
  }

  /** After a reset the mark is gone, and the reset record is already the default (reset is idempotent). */
  lemma ResetClearsMark(f: FilterState)
    ensures !MarkShown(Reset(f))
    ensures Reset(Reset(f)) == Reset(f) == DefaultFilters
  {
  }
}
