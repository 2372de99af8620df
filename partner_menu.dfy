// The partner's menu page (features/partner/PartnerMenuPage.tsx): the
// search over the first restaurant's menu, and the new menus built on
// delete and on save, which the page hands to updateMenu.
module PartnerMenu {
  import opened Types
  import opened Text
  import opened Lists

  /** The page manages the first restaurant's menu; an absent menu is empty. */
  function CurrentMenu(restaurants: seq<Restaurant>): seq<MenuItem>
    requires |restaurants| > 0
  {
    match restaurants[0].menu
    case Some(m) => m
    case None => []
  }

  predicate Matches(search: string, item: MenuItem)
  {
    Contains(Lower(item.name), Lower(search)) || Contains(Lower(item.category), Lower(search))
  }

  function Shown(menu: seq<MenuItem>, search: string): seq<MenuItem>
  {
    Filter(menu, (item: MenuItem) => Matches(search, item))
  }

  /** The listed items are the menu's items whose name or category includes the search; all of them for an empty search. */
  lemma ShownExact(menu: seq<MenuItem>, search: string)
    ensures forall item :: item in Shown(menu, search) <==> item in menu && Matches(search, item)
    ensures search == "" ==> Shown(menu, search) == menu
  {
    forall item | item in menu && Matches(search, item) ensures item in Shown(menu, search) {
      var i :| 0 <= i < |menu| && menu[i] == item;
    }
    if search == "" {
      forall i | 0 <= i < |menu| ensures Matches(search, menu[i]) {
        ContainsEmpty(Lower(menu[i].name));
      }
      FilterAll(menu, (item: MenuItem) => Matches(search, item));
    }
  }

  function ItemIdIsNot(id: string): MenuItem -> bool
  {
    (item: MenuItem) => item.id != id
  }

  function ItemIdIs(id: string): MenuItem -> bool
  {
    (item: MenuItem) => item.id == id
  }

  /** handleDelete's menu (after the confirm): every item with that id goes. */
  function Deleted(menu: seq<MenuItem>, id: string): seq<MenuItem>
  {
    Filter(menu, ItemIdIsNot(id))
  }

  /**
   * Nothing with the id is left, every other item stays, and the menu
   * shrinks by the number of items that had the id.
   */
  lemma DeletedExact(menu: seq<MenuItem>, id: string)
    ensures forall i :: 0 <= i < |Deleted(menu, id)| ==> Deleted(menu, id)[i].id != id
    ensures forall i :: 0 <= i < |menu| && menu[i].id != id ==> menu[i] in Deleted(menu, id)
    ensures |Deleted(menu, id)| + Count(menu, ItemIdIs(id)) == |menu|
  {
    CountPartition(menu, ItemIdIsNot(id), ItemIdIs(id), (item: MenuItem) => true);
    FilterAll(menu, (item: MenuItem) => true);
  }

  /** handleSaveItem's menu: an edit replaces every item with the saved id in place; a new item goes first. */
  function Saved(menu: seq<MenuItem>, item: MenuItem, editing: bool): seq<MenuItem>
  {
    if editing then ReplaceWhere(menu, ItemIdIs(item.id), item) else [item] + menu
  }

  /**
   * An edit keeps the length and the order, replacing exactly the
   * positions that had the saved id (none, if the id is unknown); an
   * addition puts the item first and shifts the rest by one.
   */
  lemma SavedShape(menu: seq<MenuItem>, item: MenuItem)
    ensures |Saved(menu, item, true)| == |menu|
    ensures forall i :: 0 <= i < |menu| && menu[i].id == item.id ==> Saved(menu, item, true)[i] == item
    ensures forall i :: 0 <= i < |menu| && menu[i].id != item.id ==> Saved(menu, item, true)[i] == menu[i]
    ensures |Saved(menu, item, false)| == |menu| + 1
    ensures Saved(menu, item, false)[0] == item && Saved(menu, item, false)[1..] == menu
    ensures (forall i :: 0 <= i < |menu| ==> menu[i].id != item.id) ==> Saved(menu, item, true) == menu
  {
    if forall i :: 0 <= i < |menu| ==> menu[i].id != item.id {
      ReplaceWhereNone(menu, ItemIdIs(item.id), item);
    }
  }

  /** Adding an item under a new id and then deleting it gives back the menu. */
  lemma AddThenDelete(menu: seq<MenuItem>, item: MenuItem)
    requires forall i :: 0 <= i < |menu| ==> menu[i].id != item.id
    ensures Deleted(Saved(menu, item, false), item.id) == menu
  {
    FilterAppend([item], menu, ItemIdIsNot(item.id));
    FilterAll(menu, ItemIdIsNot(item.id));
    assert Filter([item], ItemIdIsNot(item.id)) == [] + Filter([item][1..], ItemIdIsNot(item.id));
  }
}
