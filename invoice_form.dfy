/** The invoice form: a draft record, a non-empty list of line items whose
    amounts are kept equal to quantity times rate, and the subtotal, tax and
    total derived from them. */
module InvoiceForm {

  import opened Options
  import opened LineItems

  /** The item a new invoice starts with and `addItem` appends. */
  const BlankItem: Item := Item("", 1, 0.0, 0.0)

  const DefaultTaxRate: real := 10.0

  /** The clients the form's client picker offers. */
  const Clients: seq<string> := ["TechCorp Inc", "HealthPlus Medical", "RetailMax Solutions", "EcoGreen Energy"]

  /** The text inputs of the draft that the generic change handler writes. */
  datatype Field = Client | Description | IssueDate | DueDate | Notes

  /** `formData`. The tax rate is kept as a number. */
  datatype Draft = Draft(client: string, description: string, issueDate: string, dueDate: string,
                         taxRate: real, notes: string)

  function Get(d: Draft, f: Field): string
  {
    match f
    case Client => d.client
    case Description => d.description
    case IssueDate => d.issueDate
    case DueDate => d.dueDate
    case Notes => d.notes
  }

  /** `{...prev, [name]: value}`: exactly the named field changes. */
  function Set(d: Draft, f: Field, v: string): (r: Draft)
    ensures Get(r, f) == v
    ensures forall g :: g != f ==> Get(r, g) == Get(d, g)
    ensures r.taxRate == d.taxRate
  {
    match f
    case Client => d.(client := v)
    case Description => d.(description := v)
    case IssueDate => d.(issueDate := v)
    case DueDate => d.(dueDate := v)
    case Notes => d.(notes := v)
  }

  /** Writing a field back with its own value changes nothing, and of two
      writes to one field the last one wins. */
  lemma SetLaws(d: Draft, f: Field, v: string, w: string)
    ensures Set(d, f, Get(d, f)) == d
    ensures Set(Set(d, f, v), f, w) == Set(d, f, w)
  {
  }

  /** The three edits the item rows issue. */
  datatype ItemEdit = EditDescription(text: string) | EditQuantity(quantity: int) | EditRate(rate: real)

  /** `parseInt(value) || 1`: an input that does not parse (`None`) or
      parses to 0 becomes 1; any other value, negative ones included, is
      kept. */
  function QuantityInput(parsed: Option<int>): (q: int)
    ensures q != 0
    ensures parsed == None || parsed == Some(0) ==> q == 1
    ensures parsed.Some? && parsed.value != 0 ==> q == parsed.value
  {
    match parsed
    case None => 1
    case Some(n) => if n == 0 then 1 else n
  }

  /** `parseFloat(value) || 0`: an input that does not parse becomes 0; any
      parsed value, negative ones included, is kept. */
  function RateInput(parsed: Option<real>): (r: real)
    ensures parsed == None ==> r == 0.0
    ensures parsed.Some? ==> r == parsed.value
  {
    match parsed
    case None => 0.0
    case Some(x) => if x == 0.0 then 0.0 else x
  }

  /** `items.filter((_, i) => i !== index)`: the item at `index` is
      dropped and the others keep their order; an index outside the list
      drops nothing. */
  function RemovedAt(items: seq<Item>, index: int): (r: seq<Item>)
    ensures 0 <= index < |items| ==> |r| == |items| - 1
    ensures 0 <= index < |items| ==> forall j :: 0 <= j < index ==> r[j] == items[j]
    ensures 0 <= index < |items| ==> forall j :: index <= j < |r| ==> r[j] == items[j + 1]
    ensures !(0 <= index < |items|) ==> r == items
  {
    if 0 <= index < |items| then items[..index] + items[index + 1..] else items
  }

  /** Removing an item keeps every remaining amount consistent and lowers
      the subtotal by the removed amount. */
  lemma RemovedAtKeepsTotals(items: seq<Item>, index: int)
    requires AllPriced(items)
    ensures AllPriced(RemovedAt(items, index))
    ensures 0 <= index < |items| ==> Subtotal(RemovedAt(items, index)) == Subtotal(items) - items[index].amount
  {
    if 0 <= index < |items| {
      SubtotalDelete(items, index);
    }
  }

  /** Appending the blank item leaves the subtotal as it was. */
  lemma AddItemKeepsTotals(items: seq<Item>, taxRate: real)
    ensures TotalsOf(items + [BlankItem], taxRate) == TotalsOf(items, taxRate)
  {
    assert (items + [BlankItem])[..|items|] == items;
  }

  /** What the submit handler assembles (and only logs). */
  datatype Submission = Submission(draft: Draft, items: seq<Item>, totals: Totals, status: string)

  /** The form's state: `formData`, `items`, and the number of times the
      form has called its `onSubmit` completion callback. */
  class State {
    var draft: Draft
    var items: seq<Item>
    var completions: nat

    /** At least one item, and every item's amount is quantity times rate. */
    predicate Valid()
      reads this
    {
      |items| >= 1 && AllPriced(items)
    }

    /** The totals rendered under the items. */
    function CurrentTotals(): (t: Totals)
      reads this
      ensures t.subtotal == Subtotal(items)
      ensures 100.0 * t.tax == t.subtotal * draft.taxRate
      ensures t.total == t.subtotal + t.tax
    {
      TotalsOf(items, draft.taxRate)
    }

    /** A fresh form: one blank item, a 10 % tax rate and today's date as
        the issue date. */
    constructor (today: string)
      ensures Valid()
      ensures items == [BlankItem]
      ensures draft == Draft("", "", today, "", DefaultTaxRate, "")
      ensures draft.client !in Clients
      ensures completions == 0
    {
      draft := Draft("", "", today, "", DefaultTaxRate, "");
      items := [BlankItem];
      completions := 0;
    }

    /** `handleChange` for the text inputs. */
    method HandleChange(f: Field, value: string)
      modifies this
      ensures draft == Set(old(draft), f, value)
      ensures items == old(items) && completions == old(completions)
    {
      draft := Set(draft, f, value);
    }

    /** `handleChange` for the tax-rate input. */
    method HandleTaxRateChange(rate: real)
      modifies this
      ensures draft == old(draft).(taxRate := rate)
      ensures items == old(items) && completions == old(completions)
    {
      draft := draft.(taxRate := rate);
    }

    /** `handleItemChange`: copy the list, overwrite one field of the item
        at `index`, and recompute that item's amount when the quantity or
        rate changed. */
    method HandleItemChange(index: nat, edit: ItemEdit)
      requires Valid() && index < |items|
      modifies this
      ensures Valid()
      ensures |items| == |old(items)|
      ensures forall j :: 0 <= j < |items| && j != index ==> items[j] == old(items)[j]
      ensures items[index].description == (if edit.EditDescription? then edit.text else old(items)[index].description)
      ensures items[index].quantity == (if edit.EditQuantity? then edit.quantity else old(items)[index].quantity)
      ensures items[index].rate == (if edit.EditRate? then edit.rate else old(items)[index].rate)
      ensures edit.EditDescription? ==> items[index].amount == old(items)[index].amount
      ensures Subtotal(items) == Subtotal(old(items)) - old(items)[index].amount + items[index].amount
      ensures draft == old(draft) && completions == old(completions)
    {
      var item := items[index];
      match edit {
        case EditDescription(text) => item := item.(description := text);
        case EditQuantity(q) => item := item.(quantity := q);
        case EditRate(r) => item := item.(rate := r);
      }
      if edit.EditQuantity? || edit.EditRate? {
        item := item.(amount := item.quantity as real * item.rate);
      }
      SubtotalReplace(items, index, item);
      items := items[index := item];
    }

    /** The quantity input's change handler: the typed text goes through
        `parseInt(...) || 1`, so the item never gets quantity 0, and its
        amount is recomputed from the new quantity. */
    method HandleQuantityInput(index: nat, parsed: Option<int>)
      requires Valid() && index < |items|
      modifies this
      ensures Valid()
      ensures |items| == |old(items)|
      ensures forall j :: 0 <= j < |items| && j != index ==> items[j] == old(items)[j]
      ensures items[index].quantity == QuantityInput(parsed) && items[index].quantity != 0
      ensures items[index].rate == old(items)[index].rate
      ensures items[index].amount == QuantityInput(parsed) as real * old(items)[index].rate
      ensures draft == old(draft) && completions == old(completions)
    {
      HandleItemChange(index, EditQuantity(QuantityInput(parsed)));
    }

    /** The rate input's change handler: the typed text goes through
        `parseFloat(...) || 0`, and the item's amount is recomputed from the
        new rate. */
    method HandleRateInput(index: nat, parsed: Option<real>)
      requires Valid() && index < |items|
      modifies this
      ensures Valid()
      ensures |items| == |old(items)|
      ensures forall j :: 0 <= j < |items| && j != index ==> items[j] == old(items)[j]
      ensures items[index].rate == RateInput(parsed)
      ensures items[index].quantity == old(items)[index].quantity
      ensures items[index].amount == old(items)[index].quantity as real * RateInput(parsed)
      ensures draft == old(draft) && completions == old(completions)
    {
      HandleItemChange(index, EditRate(RateInput(parsed)));
    }

    /** `addItem`: append one blank item. */
    method AddItem()
      requires Valid()
      modifies this
      ensures Valid()
      ensures items == old(items) + [BlankItem]
      ensures CurrentTotals() == old(CurrentTotals())
      ensures draft == old(draft) && completions == old(completions)
    {
      AddItemKeepsTotals(items, draft.taxRate);
      items := items + [BlankItem];
    }

    /** `removeItem`: refused while only one item is left. */
    method RemoveItem(index: int)
      requires Valid()
      modifies this
      ensures Valid()
      ensures |old(items)| == 1 ==> items == old(items)
      ensures |old(items)| > 1 ==> items == RemovedAt(old(items), index)
      ensures draft == old(draft) && completions == old(completions)
    {
      if |items| > 1 {
        RemovedAtKeepsTotals(items, index);
        items := RemovedAt(items, index);
      }
    }

    /** `handleSubmit`: assemble the invoice with the same totals the form
        shows, as a draft, and call `onSubmit` once. */
    method HandleSubmit() returns (invoice: Submission)
      modifies this
      ensures invoice == Submission(old(draft), old(items), old(CurrentTotals()), "Draft")
      ensures draft == old(draft) && items == old(items)
      ensures completions == old(completions) + 1
    {
      var subtotal := Subtotal(items);
      var tax := subtotal * (draft.taxRate / 100.0);
      var total := subtotal + tax;
      invoice := Submission(draft, items, Totals(subtotal, tax, total), "Draft");
      completions := completions + 1;
    }

    /** The Cancel button calls `onSubmit` directly. */
    method Cancel()
      modifies this
      ensures draft == old(draft) && items == old(items)
      ensures completions == old(completions) + 1
    {
      completions := completions + 1;
    }
  }

}
