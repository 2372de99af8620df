// The partner's item editor (features/partner/components/MenuEditorModal.tsx):
// the form, the editable option rows, and the item record built on save.
module MenuEditor {
  import opened Types
  import opened MockApi

  /** The form fields of the item being edited. */
  datatype Form = Form(name: string, description: string, price: real, category: string, image: string, popular: bool)

  const PlaceholderImage := "https://images.unsplash.com/photo-1546069901-ba9599a7e63c?auto=format&fit=crop&q=80&w=400"

  /** The form for a new item. */
  const BlankForm := Form("", "", 0.0, "Meals", PlaceholderImage, false)

  function FormOf(item: MenuItem): Form
  {
    Form(item.name, item.description, item.price, item.category, item.image, item.popular)
  }

  /** One edit of an option row: its name or its price. */
  datatype OptionEdit = SetName(name: string) | SetPrice(price: real)

  function Edited(o: MenuItemOption, e: OptionEdit): MenuItemOption
  {
    match e
    case SetName(n) => o.(name := n)
    case SetPrice(p) => o.(price := p)
  }

  /** `options.filter((_, i) => i !== index)` for an index of a shown row. */
  function RemoveAt(options: seq<MenuItemOption>, index: nat): (r: seq<MenuItemOption>)
    requires index < |options|
    ensures |r| == |options| - 1
    ensures forall j :: 0 <= j < index ==> r[j] == options[j]
    ensures forall j :: index <= j < |r| ==> r[j] == options[j + 1]
  {
    options[..index] + options[index + 1..]
  }

  /** Removing the row just added gives back the rows from before. */
  lemma AddThenRemove(options: seq<MenuItemOption>)
    ensures RemoveAt(options + [MenuItemOption("", 0.0)], |options|) == options
  {
    assert (options + [MenuItemOption("", 0.0)])[..|options|] == options;
  }

  /** The id on save: the edited item's own when it has a non-empty one, else a fresh `m-` id. */
  function SavedId(editing: Option<MenuItem>, clock: nat): (r: string)
    ensures editing.Some? && editing.value.id != "" ==> r == editing.value.id
    ensures !(editing.Some? && editing.value.id != "") ==> |r| > 2 && r[..2] == "m-"
  {
    if editing.Some? && editing.value.id != "" then editing.value.id else FreshId("m-", clock)
  }

  class MenuEditorDialog {
    var editing: Option<MenuItem>
    var form: Form
    var options: seq<MenuItemOption>

    constructor ()
      ensures editing.None? && form == BlankForm.(image := "") && options == []
    {
      editing, form, options := None, BlankForm.(image := ""), [];
    }

    /** The effect run when the dialog opens: load the item, or a blank form with no options. */
    method Open(item: Option<MenuItem>)
      modifies this`editing, this`form, this`options
      ensures editing == item
      ensures item.Some? ==>
        (form == FormOf(item.value) && options == (match item.value.options case Some(os) => os case None => []))
      ensures item.None? ==> form == BlankForm && options == []
    {
      editing := item;
      match item {
        case Some(it) =>
          form := FormOf(it);
          options := match it.options case Some(os) => os case None => [];
        case None =>
          form := BlankForm;
          options := [];
      }
    }

    method EditForm(f: Form)
      modifies this`form
      ensures form == f
    {
      form := f;
    }

    /** handleAddOption: an empty row at the end. */
    method AddOption()
      modifies this`options
      ensures options == old(options) + [MenuItemOption("", 0.0)]
    {
      options := options + [MenuItemOption("", 0.0)];
    }

    /** handleOptionChange: one field of one row; every other row and field stays. */
    method ChangeOption(index: nat, e: OptionEdit)
      requires index < |options|
      modifies this`options
      ensures |options| == |old(options)|
      ensures forall j :: 0 <= j < |options| && j != index ==> options[j] == old(options)[j]
      ensures e.SetName? ==> options[index] == MenuItemOption(e.name, old(options)[index].price)
      ensures e.SetPrice? ==> options[index] == MenuItemOption(old(options)[index].name, e.price)
    {
      var copy := options;
      copy := copy[index := Edited(copy[index], e)];
      options := copy;
    }

    /** handleRemoveOption: exactly that row goes. */
    method RemoveOption(index: nat)
      requires index < |options|
      modifies this`options
      ensures options == RemoveAt(old(options), index)
    {
      options := RemoveAt(options, index);
    }

    /** handleSubmit: the record handed to onSave; `clock` stands for Date.now(). */
    method Submit(clock: nat) returns (item: MenuItem)
      ensures item.id == SavedId(editing, clock)
      ensures FormOf(item) == form && item.options == Some(options)
    {
      item := MenuItem(SavedId(editing, clock), form.name, form.description, form.price,
                       form.image, form.category, form.popular, Some(options));
    }
  }
}
