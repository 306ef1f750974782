/** The billing view: its invoices, the status badge colour and icon, the
    list/detail selector, the create-invoice dialog flag, and the revenue,
    pending and overdue cards. */
module Billing {

  import opened Options
  import opened Display
  import opened Folds
  import opened LineItems
  import opened ViewState

  /** One invoice. `amount` is the subtotal before tax. */
  datatype Invoice = Invoice(id: string, client: string, amount: real, tax: real, total: real, status: string,
                             issueDate: string, dueDate: string, paidDate: Option<string>,
                             description: string, items: seq<Item>)

  /** The invoices the view lists. */
  const Invoices: seq<Invoice> := [
    Invoice("INV-2024-001", "TechCorp Inc", 25000.0, 2500.0, 27500.0, "Paid",
            "2024-06-01", "2024-06-30", Some("2024-06-15"), "Q2 Digital Marketing Services",
            [Item("Google Ads Management", 1, 15000.0, 15000.0),
             Item("Facebook Ads Management", 1, 8000.0, 8000.0),
             Item("Strategy Consultation", 4, 500.0, 2000.0)]),
    Invoice("INV-2024-002", "HealthPlus Medical", 15000.0, 1500.0, 16500.0, "Sent",
            "2024-06-10", "2024-07-10", None, "Lead Generation Campaign - May 2024",
            [Item("Facebook Lead Ads Setup", 1, 5000.0, 5000.0),
             Item("Campaign Management", 1, 8000.0, 8000.0),
             Item("Landing Page Optimization", 1, 2000.0, 2000.0)]),
    Invoice("INV-2024-003", "RetailMax Solutions", 18500.0, 1850.0, 20350.0, "Overdue",
            "2024-05-15", "2024-06-15", None, "Summer Campaign Setup & Management",
            [Item("Campaign Strategy & Setup", 1, 8500.0, 8500.0),
             Item("Ad Creative Development", 1, 5000.0, 5000.0),
             Item("Campaign Management - May", 1, 5000.0, 5000.0)]),
    Invoice("INV-2024-004", "EcoGreen Energy", 12000.0, 1200.0, 13200.0, "Draft",
            "2024-06-16", "2024-07-16", None, "Brand Awareness Campaign - June 2024",
            [Item("Google Ads Campaign", 1, 7000.0, 7000.0),
             Item("Social Media Management", 1, 3000.0, 3000.0),
             Item("Performance Reporting", 1, 2000.0, 2000.0)])
  ]

  /** The detail view labels the tax line "Tax (10%)". */
  const StatedTaxRate: real := 10.0

  /** An invoice whose stored figures are the ones its items determine. */
  predicate Consistent(inv: Invoice)
  {
    && AllPriced(inv.items)
    && TotalsOf(inv.items, StatedTaxRate) == Totals(inv.amount, inv.tax, inv.total)
  }

  /** Sum of the three items of a mock invoice, unfolded. */
  lemma SubtotalOfThree(a: Item, b: Item, c: Item)
    ensures Subtotal([a, b, c]) == a.amount + b.amount + c.amount
  {
    assert [a][..0] == [];
    assert Subtotal([a]) == a.amount;
    assert [a, b][..1] == [a];
    assert Subtotal([a, b]) == a.amount + b.amount;
    assert [a, b, c][..2] == [a, b];
  }

  /** Every listed invoice is consistent. */
  lemma InvoicesConsistent()
    ensures forall i :: 0 <= i < |Invoices| ==> Consistent(Invoices[i])
  {
    forall i | 0 <= i < |Invoices| ensures Consistent(Invoices[i]) {
      var items := Invoices[i].items;
      SubtotalOfThree(items[0], items[1], items[2]);
      assert items == [items[0], items[1], items[2]];
    }
  }

  /** `getStatusColor`. */
  function StatusColor(status: string): (c: Colour)
    ensures c == Green <==> ToLower(status) == "paid"
    ensures c == Blue <==> ToLower(status) == "sent"
    ensures c == Red <==> ToLower(status) == "overdue"
    ensures c != Yellow
  {
    var s := ToLower(status);
    if s == "paid" then Green
    else if s == "sent" then Blue
    else if s == "overdue" then Red
    else if s == "draft" then Gray
    else Gray
  }

  datatype Icon = CheckCircle | Clock | Eye

  /** `getStatusIcon`: sent and overdue invoices share the clock. */
  function StatusIcon(status: string): (icon: Icon)
    ensures icon == CheckCircle <==> ToLower(status) == "paid"
    ensures icon == Clock <==> ToLower(status) == "sent" || ToLower(status) == "overdue"
  {
    var s := ToLower(status);
    if s == "paid" then CheckCircle
    else if s == "sent" then Clock
    else if s == "overdue" then Clock
    else if s == "draft" then Eye
    else Eye
  }

  /** Both classifiers ignore letter case, and the icon is the check mark
      exactly when the colour is green. */
  lemma ClassifiersIgnoreCase(status: string)
    ensures StatusColor(ToLower(status)) == StatusColor(status)
    ensures StatusIcon(ToLower(status)) == StatusIcon(status)
    ensures StatusIcon(status) == CheckCircle <==> StatusColor(status) == Green
  {
    ToLowerIdempotent(status);
  }

  /** "Send Invoice" is offered on the detail view of a draft only. */
  function SendOffered(inv: Invoice): (offered: bool)
    ensures offered <==> inv.status == "Draft"
  {
    inv.status == "Draft"
  }

  /** Only a draft offers "Send Invoice": its badge is gray with the eye
      icon, and it counts towards neither the revenue nor the pending card. */
  lemma SendOnlyOnGrayBadge(inv: Invoice)
    ensures SendOffered(inv) ==> StatusColor(inv.status) == Gray && StatusIcon(inv.status) == Eye
    ensures SendOffered(inv) ==> !IsPaid(inv) && !IsPending(inv)
  {
  }

  function IsPaid(inv: Invoice): bool { inv.status == "Paid" }
  function IsDraft(inv: Invoice): bool { inv.status == "Draft" }
  function IsOverdue(inv: Invoice): bool { inv.status == "Overdue" }
  /** Neither paid nor draft: sent, overdue, or any other label. */
  function IsPending(inv: Invoice): bool { inv.status != "Paid" && inv.status != "Draft" }
  function IsBilled(inv: Invoice): bool { inv.status != "Draft" }
  function TotalOf(inv: Invoice): real { inv.total }

  function TotalRevenue(invs: seq<Invoice>): real { SumWhere(invs, IsPaid, TotalOf) }
  function PendingAmount(invs: seq<Invoice>): real { SumWhere(invs, IsPending, TotalOf) }
  function OverdueAmount(invs: seq<Invoice>): real { SumWhere(invs, IsOverdue, TotalOf) }

  /** The summary cards over the mock invoices: $27,500 revenue, $36,850
      pending and $20,350 overdue. */
  lemma InitialCards()
    ensures TotalRevenue(Invoices) == 27500.0
    ensures PendingAmount(Invoices) == 36850.0
    ensures OverdueAmount(Invoices) == 20350.0
  {
    var a, b, c, d := Invoices[0], Invoices[1], Invoices[2], Invoices[3];
    assert Invoices == [a, b, c, d];
    SumWhereOfFour(a, b, c, d, IsPaid, TotalOf);
    SumWhereOfFour(a, b, c, d, IsPending, TotalOf);
    SumWhereOfFour(a, b, c, d, IsOverdue, TotalOf);
  }

  /** Overdue invoices are pending ones, so with non-negative totals the
      overdue card never shows more than the pending card. */
  lemma OverdueWithinPending(invs: seq<Invoice>)
    requires forall i :: 0 <= i < |invs| ==> invs[i].total >= 0.0
    ensures 0.0 <= OverdueAmount(invs) <= PendingAmount(invs)
  {
    SumWhereMonotone(invs, IsOverdue, IsPending, TotalOf);
    SumWhereNonNegative(invs, IsOverdue, TotalOf);
  }

  /** Revenue, pending and draft totals account for every invoice exactly
      once. */
  lemma TotalsPartition(invs: seq<Invoice>)
    ensures TotalRevenue(invs) + PendingAmount(invs) + SumWhere(invs, IsDraft, TotalOf) == Sum(invs, TotalOf)
  {
    SumWhereSplit(invs, Always(), IsDraft, IsBilled, TotalOf);
    SumWhereSplit(invs, IsBilled, IsPaid, IsPending, TotalOf);
  }

  /** The view's state. */
  class State {
    var showCreateInvoice: bool
    var selected: Option<Invoice>
    var viewMode: Mode

    predicate Valid()
      reads this
    {
      Coherent(viewMode, selected)
    }

    constructor ()
      ensures Valid()
      ensures !showCreateInvoice && selected == None && viewMode == List
    {
      showCreateInvoice, selected, viewMode := false, None, List;
    }

    /** The row's View button. */
    method View(inv: Invoice)
      modifies this
      ensures Valid()
      ensures selected == Some(inv) && viewMode == Detail
      ensures showCreateInvoice == old(showCreateInvoice)
    {
      selected := Some(inv);
      viewMode := Detail;
    }

    /** The detail view's Back button. */
    method Back()
      modifies this
      ensures Valid()
      ensures viewMode == List && selected == None
      ensures showCreateInvoice == old(showCreateInvoice)
    {
      viewMode := List;
      selected := None;
    }

    /** The Create Invoice button. */
    method OpenCreateInvoice()
      modifies this
      ensures showCreateInvoice
      ensures selected == old(selected) && viewMode == old(viewMode)
    {
      showCreateInvoice := true;
    }

    /** The dialog's close action and the form's completion callback. */
    method CloseCreateInvoice()
      modifies this
      ensures !showCreateInvoice
      ensures selected == old(selected) && viewMode == old(viewMode)
    {
      showCreateInvoice := false;
    }
  }

}
