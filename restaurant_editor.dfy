// The admin's restaurant editor (features/admin/components/RestaurantEditorModal.tsx):
// the form it opens with, the cuisine tags it adds and removes, and the
// record it hands back on save.
module RestaurantEditor {
  import opened Types
  import opened Text
  import opened Lists
  import opened MockApi

  /** The fields of the form that the saved record is built from. */
  datatype Form = Form(
    name: string,
    cuisine: seq<string>,
    rating: real,
    reviewCount: int,
    distance: real,
    deliveryTime: string,
    priceRange: string,
    image: string,
    menu: Option<seq<MenuItem>>)

  const StockImage := "https://images.unsplash.com/photo-1517248135467-4c7edcad34c4?auto=format&fit=crop&q=80&w=600"

  /** The form for a new restaurant. */
  const NewForm := Form("", [], 4.5, 0, 1.5, "25-35 min", "$$", StockImage, Some([]))

  function FormOf(r: Restaurant): Form
  {
    Form(r.name, r.cuisine, r.rating, r.reviewCount, r.distance, r.deliveryTime, r.priceRange, r.image, r.menu)
  }

  /**
   * The form each time the dialog opens: the edited restaurant's fields, or
   * the new-restaurant defaults (rating 4.5, no reviews, '$$', no cuisines,
   * an empty menu).
   */
  function Opened(editing: Option<Restaurant>): (f: Form)
    ensures editing.None? ==> (f.name == "" && f.cuisine == [] && f.rating == 4.5 && f.reviewCount == 0
                               && f.priceRange == "$$" && f.menu == Some([]))
    ensures editing.Some? ==> (f.name == editing.value.name && f.cuisine == editing.value.cuisine
                               && f.menu == editing.value.menu)
  {
    if editing.Some? then FormOf(editing.value) else NewForm
  }

  /**
   * handleAddCuisine: a non-blank input is trimmed and appended to the tags
   * and the input box cleared; a blank one changes nothing.
   */
  function AddCuisine(f: Form, input: string): (r: (Form, string))
    ensures IsBlank(input) ==> r == (f, input)
    ensures !IsBlank(input) ==> r.1 == "" && r.0.cuisine == f.cuisine + [Trim(input)]
    ensures r.0 == f.(cuisine := r.0.cuisine)
  {
    var tag := Trim(input);
    if tag != "" then (f.(cuisine := f.cuisine + [tag]), "") else (f, input)
  }

  /** removeCuisine: every tag equal to the given one goes, the others stay in order. */
  function RemoveCuisine(f: Form, tag: string): (r: Form)
    ensures r == f.(cuisine := r.cuisine)
    ensures forall c :: c in r.cuisine <==> c in f.cuisine && c != tag
  {
    f.(cuisine := Filter(f.cuisine, Unequal(tag)))
  }

  /** Removing a tag that was just added, and was not there before, restores the form. */
  lemma AddThenRemove(f: Form, input: string)
    requires !IsBlank(input) && Trim(input) !in f.cuisine
    ensures RemoveCuisine(AddCuisine(f, input).0, Trim(input)) == f
  {
    var tag := Trim(input);
    FilterAppend(f.cuisine, [tag], Unequal(tag));
    FilterAll(f.cuisine, Unequal(tag));
  }

  /** The id on save: the edited restaurant's, unless that is empty, else `r-` and the clock. */
  function SavedId(editing: Option<Restaurant>, clock: nat): (id: string)
    ensures editing.Some? && editing.value.id != "" ==> id == editing.value.id
    ensures (editing.None? || editing.value.id == "") ==> |id| > 2 && id[..2] == "r-"
  {
    if editing.Some? && editing.value.id != "" then editing.value.id else FreshId("r-", clock)
  }

  /**
   * handleSave: a new record built from the listed form fields only, the menu
   * defaulting to []; `clock` stands for `Date.now()`. Because only those
   * fields are copied, the record has no status, banner or owner and is not
   * marked new, whatever the edited restaurant had.
   */
  function Saved(editing: Option<Restaurant>, f: Form, clock: nat): (r: Restaurant)
    ensures r.id == SavedId(editing, clock)
    ensures FormOf(r) == f.(menu := Some(f.menu.GetOr([])))
    ensures r.status.None? && r.banner.None? && r.ownerId.None? && !r.isNew
  {
    Restaurant(SavedId(editing, clock), f.name, f.rating, f.reviewCount, f.cuisine, f.distance,
               f.deliveryTime, f.priceRange, f.image, false, None,
               Some(f.menu.GetOr([])), None, None)
  }

  /**
   * Opening a restaurant and saving it unchanged keeps its id and every
   * listed field, and loses exactly status, banner, owner and the new mark.
   */
  lemma EditRoundTrip(r: Restaurant, clock: nat)
    requires r.id != "" && r.menu.Some?
    ensures Saved(Some(r), Opened(Some(r)), clock)
      == r.(isNew := false, banner := None, ownerId := None, status := None)
  {
  }

  /** Saving the untouched new form gives the defaults, a fresh `r-` id and an empty menu. */
  lemma NewRecordDefaults(clock: nat)
    ensures var r := Saved(None, Opened(None), clock);
      r.rating == 4.5 && r.reviewCount == 0 && r.priceRange == "$$" && r.menu == Some([])
      && r.cuisine == [] && r.id[..2] == "r-"
  {
  }
}
