/** Invoice line items and the subtotal, tax and total derived from them, as
    the invoice form computes them and as the billing view's invoices state
    them. Money is exact (`real`); quantities are whole numbers. */
module LineItems {

  datatype Item = Item(description: string, quantity: int, rate: real, amount: real)

  /** An item whose amount is its quantity times its rate. */
  predicate Priced(item: Item)
  {
    item.amount == item.quantity as real * item.rate
  }

  predicate AllPriced(items: seq<Item>)
  {
    forall i :: 0 <= i < |items| ==> Priced(items[i])
  }

  /** `items.reduce((sum, item) => sum + item.amount, 0)`. */
  function Subtotal(items: seq<Item>): real
  {
    if items == [] then 0.0 else Subtotal(items[..|items| - 1]) + items[|items| - 1].amount
  }

  /** The subtotal of two lists joined is the sum of their subtotals. */
  lemma {:induction false} SubtotalConcat(a: seq<Item>, b: seq<Item>)
    ensures Subtotal(a + b) == Subtotal(a) + Subtotal(b)
  {
    if b == [] {
      assert a + b == a;
    } else {
      assert (a + b)[..|a + b| - 1] == a + b[..|b| - 1];
      SubtotalConcat(a, b[..|b| - 1]);
    }
  }

  /** Replacing one item changes the subtotal by exactly the change in that
      item's amount. */
  lemma SubtotalReplace(items: seq<Item>, i: nat, x: Item)
    requires i < |items|
    ensures Subtotal(items[i := x]) == Subtotal(items) - items[i].amount + x.amount
  {
    assert items == items[..i] + [items[i]] + items[i + 1..];
    assert items[i := x] == items[..i] + [x] + items[i + 1..];
    SubtotalConcat(items[..i] + [items[i]], items[i + 1..]);
    SubtotalConcat(items[..i] + [x], items[i + 1..]);
    SubtotalConcat(items[..i], [items[i]]);
    SubtotalConcat(items[..i], [x]);
  }

  /** Deleting one item lowers the subtotal by exactly that item's amount. */
  lemma SubtotalDelete(items: seq<Item>, i: nat)
    requires i < |items|
    ensures Subtotal(items[..i] + items[i + 1..]) == Subtotal(items) - items[i].amount
  {
    assert items == items[..i] + [items[i]] + items[i + 1..];
    SubtotalConcat(items[..i] + [items[i]], items[i + 1..]);
    SubtotalConcat(items[..i], [items[i]]);
    SubtotalConcat(items[..i], items[i + 1..]);
  }

  /** The subtotal, tax and total shown under the items and sent on submit. */
  datatype Totals = Totals(subtotal: real, tax: real, total: real)

  /** `tax = subtotal * (taxRate / 100)` and `total = subtotal + tax`. */
  function TotalsOf(items: seq<Item>, taxRate: real): (t: Totals)
    ensures t.subtotal == Subtotal(items)
    ensures 100.0 * t.tax == t.subtotal * taxRate
    ensures t.total == t.subtotal + t.tax
    ensures t.total == t.subtotal * (1.0 + taxRate / 100.0)
  {
    var subtotal := Subtotal(items);
    var tax := subtotal * (taxRate / 100.0);
    Totals(subtotal, tax, subtotal + tax)
  }

  /** Two items of 2 x 100 and 1 x 50 at a 10 % rate come to 250 + 25 = 275. */
  lemma TotalsExample()
    ensures TotalsOf([Item("", 2, 100.0, 200.0), Item("", 1, 50.0, 50.0)], 10.0) == Totals(250.0, 25.0, 275.0)
  {
    var items := [Item("", 2, 100.0, 200.0), Item("", 1, 50.0, 50.0)];
    assert items[..1] == [items[0]];
    assert [items[0]][..0] == [];
    assert Subtotal([items[0]]) == 200.0;
    assert Subtotal(items) == 250.0;
  }

}
