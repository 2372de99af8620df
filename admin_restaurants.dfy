// The admin's restaurant list (features/admin/AdminRestaurantsPage.tsx): the
// search and status tabs, the status badge, the approval workflow each row
// offers, and what saving the editor dispatches to the store.
module AdminRestaurants {
  import opened Types
  import opened Text
  import opened Lists
  import opened MockApi
  import opened DataStore
  import opened RestaurantEditor

  /** 'All' or one status. */
  datatype Tab = All | Showing(status: RestaurantStatus)

  const Tabs: seq<Tab> := [All, Showing(RestaurantStatus.Active), Showing(Pending), Showing(RestaurantStatus.Suspended)]

  /** The name or some cuisine tag contains the search, ignoring case. */
  predicate MatchesSearch(r: Restaurant, search: string)
  {
    Contains(Lower(r.name), Lower(search))
    || exists c :: c in r.cuisine && Contains(Lower(c), Lower(search))
  }

  predicate MatchesTab(r: Restaurant, tab: Tab)
  {
    tab.All? || r.status == Some(tab.status)
  }

  /** filteredRestaurants: the table's rows, in the store's order. */
  function Listed(restaurants: seq<Restaurant>, search: string, tab: Tab): (r: seq<Restaurant>)
    ensures |r| <= |restaurants|
    ensures forall x :: x in r <==> x in restaurants && MatchesSearch(x, search) && MatchesTab(x, tab)
  {
    Filter(restaurants, (x: Restaurant) => MatchesSearch(x, search) && MatchesTab(x, tab))
  }

  /** With an empty search under 'All', every restaurant is listed, in order. */
  lemma FirstLoadListsAll(restaurants: seq<Restaurant>)
    ensures Listed(restaurants, "", All) == restaurants
  {
    forall x | x in restaurants
      ensures MatchesSearch(x, "")
    {
      ContainsEmpty(Lower(x.name));
    }
    FilterAll(restaurants, (x: Restaurant) => MatchesSearch(x, "") && MatchesTab(x, All));
  }

  /** A restaurant with no status is listed under 'All' only. */
  lemma NoStatusOnlyUnderAll(restaurants: seq<Restaurant>, search: string, tab: Tab, x: Restaurant)
    requires x.status.None? && tab != All
    ensures x !in Listed(restaurants, search, tab)
  {
  }

  // ---- the badge and the workflow ----

  /** `rest.status || 'Active'`. */
  function StatusLabel(s: Option<RestaurantStatus>): string
  {
    match s
    case Some(Active) => "Active"
    case Some(Pending) => "Pending"
    case Some(Suspended) => "Suspended"
    case None => "Active"
  }

  datatype Tone = Green | Orange | Red

  /** The badge colour: green for Active, orange for Pending, red otherwise. */
  function BadgeTone(s: Option<RestaurantStatus>): Tone
  {
    if s == Some(RestaurantStatus.Active) then Green
    else if s == Some(Pending) then Orange
    else Red
  }

  /** The workflow buttons: approve, reject, suspend, reactivate. */
  datatype Action = Approve | Reject | Suspend | Reactivate

  /** The status each button asks the store for. */
  function Target(a: Action): RestaurantStatus
  {
    match a
    case Approve => RestaurantStatus.Active
    case Reject => RestaurantStatus.Suspended
    case Suspend => RestaurantStatus.Suspended
    case Reactivate => RestaurantStatus.Active
  }

  /** The buttons a row shows for its status. */
  function Actions(s: Option<RestaurantStatus>): (r: seq<Action>)
    ensures s.None? ==> r == []
    ensures forall a :: a in r ==> s.Some? && Target(a) != s.value && Target(a) != Pending
  {
    match s
    case Some(Pending) => [Approve, Reject]
    case Some(Active) => [Suspend]
    case Some(Suspended) => [Reactivate]
    case None => []
  }

  /** The intended workflow, stated on its own: which status may follow which. */
  predicate Move(from: RestaurantStatus, to: RestaurantStatus)
  {
    (from == Pending && (to == RestaurantStatus.Active || to == RestaurantStatus.Suspended))
    || (from == RestaurantStatus.Active && to == RestaurantStatus.Suspended)
    || (from == RestaurantStatus.Suspended && to == RestaurantStatus.Active)
  }

  /** The buttons offer exactly the workflow's moves. */
  lemma ActionsAreMoves(from: RestaurantStatus, to: RestaurantStatus)
    ensures Move(from, to) <==> exists a :: a in Actions(Some(from)) && Target(a) == to
  {
    if Move(from, to) {
      var a := match from
        case Pending => if to == RestaurantStatus.Active then Approve else Reject
        case Active => Suspend
        case Suspended => Reactivate;
      assert a in Actions(Some(from)) && Target(a) == to;
    }
  }

  /** A restaurant with no status shows as 'Active' in a red badge, and gets no workflow button. */
  lemma MissingStatus()
    ensures StatusLabel(None) == "Active" && BadgeTone(None) == Red && Actions(None) == []
  {
  }

  /**
   * Along any run of button presses, nothing goes back to Pending: every
   * status after the first is Active or Suspended.
   */
  lemma {:induction false} NeverBackToPending(run: seq<RestaurantStatus>, presses: seq<Action>)
    requires |presses| + 1 == |run|
    requires forall i :: 0 <= i < |presses| ==> presses[i] in Actions(Some(run[i])) && run[i + 1] == Target(presses[i])
    ensures forall i :: 1 <= i < |run| ==> run[i] != Pending
  {
    if |presses| > 0 {
      NeverBackToPending(run[..|run| - 1], presses[..|presses| - 1]);
      var last := |presses| - 1;
      assert presses[last] in Actions(Some(run[last]));
    }
  }

  /**
   * A status change replaces the entries with that id by a record whose
   * status is the target; when the target is not Pending, no entry becomes
   * Pending and the list keeps its length.
   */
  lemma StatusChangeAddsNoPending(restaurants: seq<Restaurant>, id: string, updated: Restaurant)
    requires updated.status.Some? && updated.status.value != Pending
    ensures var after := ReplaceWhere(restaurants, RestaurantIdIs(id), updated);
      |after| == |restaurants|
      && forall i :: 0 <= i < |after| && after[i].status == Some(Pending) ==>
           restaurants[i].status == Some(Pending) && restaurants[i].id != id
  {
  }

  /** handleStatusChange on a row's button: the store's setRestaurantStatus with the button's target. */
  method HandleStatusChange(store: DataStore, row: Restaurant, a: Action) returns (r: Result<()>)
    requires a in Actions(row.status)
    modifies store`restaurants, store.db`data
    ensures |store.restaurants| == |old(store.restaurants)|
    ensures forall i :: 0 <= i < |store.restaurants| && store.restaurants[i].status == Some(Pending) ==>
      old(store.restaurants)[i] == store.restaurants[i]
  {
    r := store.SetRestaurantStatus(row.id, Target(a));
    ghost var list := Read(old(store.db.data).restaurants);
    match FindFirst(list, RestaurantIdIs(row.id))
    case None =>
    case Some(k) =>
      StatusChangeAddsNoPending(old(store.restaurants), row.id, list[k].(status := Some(Target(a))));
  }

  /**
   * handleDelete, once the confirmation is accepted: every entry with the id
   * goes, so the restaurant is listed under no tab and for no search.
   */
  method HandleDelete(store: DataStore, id: string)
    modifies store`restaurants, store.db`data
    ensures store.restaurants == Filter(old(store.restaurants), RestaurantIdIsNot(id))
    ensures forall search, tab, x :: x in Listed(store.restaurants, search, tab) ==> x.id != id
  {
    store.DeleteRestaurant(id);
  }

  // ---- saving the editor ----

  /** What handleSaveRestaurant dispatches: an update when editing, else an add. */
  datatype SaveOp = Update(r: Restaurant) | Add(r: Restaurant)

  function Dispatch(editing: Option<Restaurant>, f: Form, clock: nat): (op: SaveOp)
    ensures op.Update? <==> editing.Some?
    ensures op.r == Saved(editing, f, clock)
  {
    var rest := Saved(editing, f, clock);
    if editing.Some? then Update(rest) else Add(rest)
  }

  /**
   * handleSaveRestaurant with the editor's record; `clock` stands for the
   * editor's `Date.now()`, the store stamps its own id and Pending on an add.
   */
  method HandleSave(store: DataStore, editing: Option<Restaurant>, f: Form, clock: nat)
    modifies store`restaurants, store.db`data, store.db`clock
    ensures var rest := Saved(editing, f, clock);
      if editing.Some? then store.restaurants == ReplaceWhere(old(store.restaurants), RestaurantIdIs(rest.id), rest)
      else store.restaurants == [rest.(id := FreshId("r-", old(store.db.clock)), status := Some(Pending))] + old(store.restaurants)
  {
    match Dispatch(editing, f, clock)
    case Update(rest) => store.UpdateRestaurant(rest);
    case Add(rest) => store.AddRestaurant(rest);
  }

  /**
   * A newly added restaurant heads the list, shows under the Pending tab
   * with approve and reject, whatever the form held.
   */
  lemma AddedIsPending(restaurants: seq<Restaurant>, f: Form, clock: nat, storeClock: nat, search: string)
    requires MatchesSearch(Saved(None, f, clock), search)
    ensures var created := Saved(None, f, clock).(id := FreshId("r-", storeClock), status := Some(Pending));
      Listed([created] + restaurants, search, Showing(Pending)) == [created] + Listed(restaurants, search, Showing(Pending))
      && Actions(created.status) == [Approve, Reject]
  {
    var created := Saved(None, f, clock).(id := FreshId("r-", storeClock), status := Some(Pending));
    var p := (x: Restaurant) => MatchesSearch(x, search) && MatchesTab(x, Showing(Pending));
    assert MatchesSearch(created, search);
    FilterAppend([created], restaurants, p);
  }

  /**
   * An edited restaurant is saved without a status, so it leaves every
   * status tab, shows as 'Active' and loses its workflow buttons.
   */
  lemma EditedLeavesWorkflow(editing: Restaurant, f: Form, clock: nat, restaurants: seq<Restaurant>, search: string, s: RestaurantStatus)
    ensures var rest := Saved(Some(editing), f, clock);
      rest !in Listed(restaurants, search, Showing(s))
      && StatusLabel(rest.status) == "Active" && Actions(rest.status) == []
  {
  }
}
