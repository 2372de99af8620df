// The product dialog (components/molecules/ProductModal.tsx): the option
// list, the quantity stepper, the option checkboxes, the running line total
// and the submit that hands the choice on and clears the form.
module ProductModal {
  import opened Types
  import opened Lists

  /** The options shown when the item has no option list at all. */
  const DefaultOptions: seq<MenuItemOption> :=
    [MenuItemOption("Extra Cheese", 1.5), MenuItemOption("Spicy Sauce", 0.5), MenuItemOption("No Onion", 0.0)]

  /** `item.options || defaults`: an absent list is replaced, an empty one is kept. */
  function Options(item: MenuItem): (r: seq<MenuItemOption>)
    ensures item.options.None? ==> |r| == 3
    ensures item.options.Some? ==> r == item.options.value
  {
    match item.options
    case Some(os) => os
    case None => DefaultOptions
  }

  function OptionNamed(name: string): MenuItemOption -> bool
  {
    (o: MenuItemOption) => o.name == name
  }

  /** The price of the first option with that name; 0 for a name the list does not have. */
  function OptionPrice(options: seq<MenuItemOption>, name: string): (r: real)
    ensures (forall k :: 0 <= k < |options| ==> options[k].name != name) ==> r == 0.0
    ensures (exists k :: 0 <= k < |options| && options[k].name == name) ==>
      exists k :: 0 <= k < |options| && options[k].name == name && r == options[k].price
  {
    match FindFirst(options, OptionNamed(name))
    case Some(k) => options[k].price
    case None => 0.0
  }

  function PriceIn(options: seq<MenuItemOption>): string -> real
  {
    (name: string) => OptionPrice(options, name)
  }

  /** One unit with its options: the item price plus each selected option's price. */
  function UnitPrice(item: MenuItem, selected: seq<string>): real
  {
    item.price + Sum(selected, PriceIn(Options(item)))
  }

  /** calculateTotal: the unit price times the quantity. */
  function LineTotal(item: MenuItem, selected: seq<string>, quantity: int): real
  {
    UnitPrice(item, selected) * quantity as real
  }

  /**
   * Ticking an option adds its price (0 for a name the list does not
   * have) to each unit; with nothing ticked a unit costs the item price.
   */
  lemma TickAddsOptionPrice(item: MenuItem, selected: seq<string>, name: string)
    ensures UnitPrice(item, selected + [name]) == UnitPrice(item, selected) + OptionPrice(Options(item), name)
    ensures UnitPrice(item, []) == item.price
  {
    var f := PriceIn(Options(item));
    SumAppend(selected, [name], f);
    assert Sum([name], f) == f(name) + Sum([name][1..], f);
  }

  /** What handleSubmit hands to onAddToCart. */
  datatype Choice = Choice(item: MenuItem, quantity: int, options: seq<string>, notes: string)

  class ProductDialog {
    const item: MenuItem
    var quantity: int
    var selectedOptions: seq<string>
    var notes: string

    /** The stepper never goes below one. */
    predicate Valid()
      reads this`quantity
    {
      quantity >= 1
    }

    constructor (item: MenuItem)
      ensures this.item == item && quantity == 1 && selectedOptions == [] && notes == ""
      ensures Valid()
    {
      this.item := item;
      quantity, selectedOptions, notes := 1, [], "";
    }

    /** The running total shown on the add button. */
    function Total(): real
      reads this`quantity, this`selectedOptions
    {
      LineTotal(item, selectedOptions, quantity)
    }

    method Increment()
      requires Valid()
      modifies this`quantity
      ensures Valid() && quantity == old(quantity) + 1
    {
      quantity := quantity + 1;
    }

    /** `Math.max(1, quantity - 1)`. */
    method Decrement()
      requires Valid()
      modifies this`quantity
      ensures Valid()
      ensures quantity == if old(quantity) > 1 then old(quantity) - 1 else 1
    {
      quantity := if quantity - 1 > 1 then quantity - 1 else 1;
    }

    /** handleOptionToggle. */
    method ToggleOption(name: string)
      modifies this`selectedOptions
      ensures selectedOptions == Toggle(old(selectedOptions), name)
      ensures name in selectedOptions <==> name !in old(selectedOptions)
    {
      selectedOptions := Toggle(selectedOptions, name);
    }

    method SetNotes(text: string)
      modifies this`notes
      ensures notes == text
    {
      notes := text;
    }

    /** handleSubmit: the current choice goes out and the form returns to one unit, nothing ticked, no notes. */
    method Submit() returns (choice: Choice)
      modifies this`quantity, this`selectedOptions, this`notes
      ensures choice == Choice(item, old(quantity), old(selectedOptions), old(notes))
      ensures quantity == 1 && selectedOptions == [] && notes == "" && Valid()
      ensures Total() == item.price
    {
      choice := Choice(item, quantity, selectedOptions, notes);
      quantity, selectedOptions, notes := 1, [], "";
    }
  }
}
