/** The line-item list of the order form: the draft items and the edits the
    form's handlers apply to them (frontend/src/components/OrderForm.js). */
module LineItems {
  import opened Wrappers

  /** One draft line `{item_name, unit_price, quantity}`. `unitPrice` is `None`
      where the form stores the empty string `''`. */
  datatype Item = Item(itemName: string, unitPrice: Option<real>, quantity: int)

  /** An edit coming from one of the three inputs of a line. Numeric inputs
      arrive already parsed: `None` is a parse that gave `NaN`. */
  datatype Edit =
    | NameEdit(text: string)
    | PriceEdit(parsedPrice: Option<real>)
    | QuantityEdit(parsedQuantity: Option<int>)

  /** The line the form starts with and appends: empty name, unset price, quantity 1. */
  function BlankItem(): (r: Item)
    ensures WellFormedItem(r) && r.unitPrice.None?
  {
    Item("", None, 1)
  }

  /** What `handleItemChange` can leave in a line: never a zero price, never a zero quantity. */
  predicate WellFormedItem(it: Item) {
    it.unitPrice != Some(0.0) && it.quantity != 0
  }

  /** The draft invariant: at least one line, and every line well formed. */
  predicate DraftInvariant(items: seq<Item>) {
    |items| >= 1 && forall k :: 0 <= k < |items| ==> WellFormedItem(items[k])
  }

  /** `parseFloat(value) || ''`: a price that is NaN or zero is stored as unset. */
  function StoredPrice(parsed: Option<real>): (r: Option<real>)
    ensures r.Some? <==> parsed.Some? && parsed.value != 0.0
    ensures r.Some? ==> r == parsed
    ensures r != Some(0.0)
  {
    match parsed
    case Some(p) => if p == 0.0 then None else Some(p)
    case None => None
  }

  /** `parseInt(value) || 1`: a quantity that is NaN or zero is stored as 1; any
      other integer, negative ones included, is stored as parsed. */
  function StoredQuantity(parsed: Option<int>): (q: int)
    ensures q != 0
    ensures parsed.Some? && parsed.value != 0 ==> q == parsed.value
    ensures parsed == None || parsed == Some(0) ==> q == 1
  {
    match parsed
    case Some(n) => if n == 0 then 1 else n
    case None => 1
  }

  /** The new line `{...updatedItems[index], [field]: ...}`: only the edited field changes. */
  function ApplyEdit(it: Item, e: Edit): (r: Item)
    ensures e.NameEdit? ==> r == it.(itemName := e.text)
    ensures e.PriceEdit? ==> r.itemName == it.itemName && r.quantity == it.quantity
    ensures e.PriceEdit? ==> r.unitPrice == StoredPrice(e.parsedPrice)
    ensures e.QuantityEdit? ==> r.itemName == it.itemName && r.unitPrice == it.unitPrice
    ensures e.QuantityEdit? ==> r.quantity == StoredQuantity(e.parsedQuantity)
    ensures WellFormedItem(it) ==> WellFormedItem(r)
  {
    match e
    case NameEdit(text) => it.(itemName := text)
    case PriceEdit(parsed) => it.(unitPrice := StoredPrice(parsed))
    case QuantityEdit(parsed) => it.(quantity := StoredQuantity(parsed))
  }

  /** The copied list with slot `index` overwritten by the edited line. */
  function EditAt(items: seq<Item>, index: nat, e: Edit): (r: seq<Item>)
    requires index < |items|
    ensures |r| == |items|
    ensures r[index] == ApplyEdit(items[index], e)
    ensures forall k :: 0 <= k < |items| && k != index ==> r[k] == items[k]
  {
    items[index := ApplyEdit(items[index], e)]
  }

  /** `items.filter((_, i) => i !== index)`: keeps every line whose position is
      not `index`, written as a walk that counts `index` down along the list. */
  function Filtered(items: seq<Item>, index: int): (r: seq<Item>)
    ensures 0 <= index < |items| ==> r == items[..index] + items[index + 1..]
    ensures !(0 <= index < |items|) ==> r == items
    decreases |items|
  {
    if items == [] then []
    else
      var rest := Filtered(items[1..], index - 1);
      assert 0 < index < |items| ==> items[..index] == [items[0]] + items[1..][..index - 1];
      if index == 0 then rest else [items[0]] + rest
  }

  /** `removeItem`: filter only when more than one line is left. */
  function AfterRemove(items: seq<Item>, index: int): (r: seq<Item>)
    ensures |items| <= 1 ==> r == items
    ensures |items| > 1 && 0 <= index < |items| ==> r == items[..index] + items[index + 1..]
    ensures |items| > 1 && !(0 <= index < |items|) ==> r == items
  {
    if |items| > 1 then Filtered(items, index) else items
  }

  /** Appending a blank line keeps the draft invariant. */
  lemma AddKeepsInvariant(items: seq<Item>)
    requires DraftInvariant(items)
    ensures DraftInvariant(items + [BlankItem()])
  {
  }

  /** Editing a line keeps the draft invariant, whatever was typed. */
  lemma EditKeepsInvariant(items: seq<Item>, index: nat, e: Edit)
    requires DraftInvariant(items) && index < |items|
    ensures DraftInvariant(EditAt(items, index, e))
  {
  }

  /** Removing never empties the list, and the survivors are lines of the old list
      in their old order with exactly the removed one missing. */
  lemma RemoveKeepsInvariant(items: seq<Item>, index: int)
    requires DraftInvariant(items)
    ensures DraftInvariant(AfterRemove(items, index))
    ensures |AfterRemove(items, index)| == if |items| > 1 && 0 <= index < |items| then |items| - 1 else |items|
    ensures multiset(AfterRemove(items, index)) <= multiset(items)
  {
    var r := AfterRemove(items, index);
    if |items| > 1 && 0 <= index < |items| {
      assert items == items[..index] + [items[index]] + items[index + 1..];
      forall k | 0 <= k < |r| ensures WellFormedItem(r[k]) {
        if k < index { assert r[k] == items[k]; } else { assert r[k] == items[k + 1]; }
      }
    }
  }
}
