/** The client portal: its tab bar and tab dispatch, the KPI trend styling,
    the approvals empty state and the invoice badge. */
module ClientPortal {

  import opened Display
  import opened Selection
  import opened TabBar
  import Billing

  /** The panels `renderContent` can show. */
  datatype Panel = DashboardPanel | ReportsPanel | ApprovalsPanel | InvoicesPanel

  /** The tab ids, in display order. */
  const TabIds: seq<string> := ["dashboard", "reports", "approvals", "invoices"]

  /** `renderContent`: each tab id selects its own panel, and any other id
      falls back to the dashboard. */
  function RenderContent(activeTab: string): (p: Panel)
    ensures activeTab !in TabIds ==> p == DashboardPanel
    ensures p == DashboardPanel <==> activeTab == "dashboard" || activeTab !in TabIds
  {
    match activeTab
    case "dashboard" => DashboardPanel
    case "reports" => ReportsPanel
    case "approvals" => ApprovalsPanel
    case "invoices" => InvoicesPanel
    case _ => DashboardPanel
  }

  /** The position of the tab that shows a panel: the inverse of
      `RenderContent` over the tab ids. */
  function TabOf(p: Panel): (i: nat)
    ensures i < |TabIds| && RenderContent(TabIds[i]) == p
  {
    match p
    case DashboardPanel => 0
    case ReportsPanel => 1
    case ApprovalsPanel => 2
    case InvoicesPanel => 3
  }

  /** Each tab shows its own panel: distinct tabs never share one. */
  lemma RenderContentOneToOne(i: nat)
    requires i < |TabIds|
    ensures TabOf(RenderContent(TabIds[i])) == i
  {
  }

  lemma TabIdsDistinct()
    ensures Distinct(TabIds)
  {
  }

  /** One KPI card; the displayed value and change are preformatted text. */
  datatype Kpi = Kpi(title: string, value: string, change: string, trend: string)

  const Kpis: seq<Kpi> := [
    Kpi("Total Spend", "$24,500", "+18%", "up"),
    Kpi("Conversions", "324", "+25%", "up"),
    Kpi("Return on Ad Spend", "5.2x", "+12%", "up"),
    Kpi("Cost per Conversion", "$75.62", "-8%", "down")
  ]

  /** How a KPI's change is drawn: its colour and whether the arrow icon is
      turned upside down. */
  datatype TrendStyle = TrendStyle(colour: Colour, rotated: bool)

  function TrendStyleOf(k: Kpi): (s: TrendStyle)
    ensures s.colour == Green <==> k.trend == "up"
    ensures s.colour != Green ==> s.colour == Red
    ensures s.rotated <==> k.trend == "down"
  {
    TrendStyle(if k.trend == "up" then Green else Red, k.trend == "down")
  }

  /** A downward trend is drawn red with the arrow turned; an upward one
      green and upright; any other trend label red but upright. */
  lemma TrendStyleCases(k: Kpi)
    ensures k.trend == "down" ==> TrendStyleOf(k) == TrendStyle(Red, true)
    ensures k.trend == "up" ==> TrendStyleOf(k) == TrendStyle(Green, false)
    ensures k.trend != "up" && k.trend != "down" ==> TrendStyleOf(k) == TrendStyle(Red, false)
  {
  }

  /** A turned arrow is always red, and for the two trend labels the data
      uses, the arrow is turned exactly when the change is drawn red. */
  lemma TurnedArrowIsRed(k: Kpi)
    ensures TrendStyleOf(k).rotated ==> TrendStyleOf(k).colour == Red
    ensures k.trend == "up" || k.trend == "down" ==> (TrendStyleOf(k).rotated <==> TrendStyleOf(k).colour == Red)
  {
  }

  /** In the portal's KPIs the arrow is turned exactly for the change that
      is negative. */
  lemma KpiArrowsFollowChange()
    ensures forall i :: 0 <= i < |Kpis| ==> |Kpis[i].change| > 0
    ensures forall i :: 0 <= i < |Kpis| ==> (TrendStyleOf(Kpis[i]).rotated <==> Kpis[i].change[0] == '-')
  {
  }

  datatype Approval = Approval(id: int, title: string, kind: string, status: string, dueDate: string)

  const Approvals: seq<Approval> := [
    Approval(1, "Q3 Campaign Creative Assets", "Creative", "Pending", "2024-06-20"),
    Approval(2, "Landing Page Updates", "Website", "Pending", "2024-06-18")
  ]

  /** The "All Caught Up!" card appears exactly when nothing awaits
      approval. */
  function ShowsAllCaughtUp(approvals: seq<Approval>): (shown: bool)
    ensures shown <==> forall a :: a !in approvals
  {
    if |approvals| == 0 then true
    else
      assert approvals[0] in approvals;
      false
  }

  datatype PortalInvoice = PortalInvoice(id: string, description: string, amount: real,
                                         status: string, dueDate: string)

  const Invoices: seq<PortalInvoice> := [
    PortalInvoice("INV-2024-001", "Q2 Digital Marketing Services", 27500.0, "Paid", "2024-06-30"),
    PortalInvoice("INV-2024-002", "May Campaign Management", 16500.0, "Sent", "2024-07-10")
  ]

  /** The invoice badge: green for a paid invoice and blue for anything
      else. Unlike the billing view's badge this test is case-sensitive. */
  function InvoiceBadge(inv: PortalInvoice): (c: Colour)
    ensures c == Green <==> inv.status == "Paid"
    ensures c == Green || c == Blue
  {
    if inv.status == "Paid" then Green else Blue
  }

  /** The portal's badge against the billing view's badge for the same
      status: green here means green there, blue there means blue here, but
      an overdue invoice is blue here and red there, and a status spelt
      "paid" is green there only. */
  lemma InvoiceBadgeVersusBilling(inv: PortalInvoice)
    ensures InvoiceBadge(inv) == Green ==> Billing.StatusColor(inv.status) == Green
    ensures Billing.StatusColor(inv.status) == Blue ==> InvoiceBadge(inv) == Blue
    ensures inv.status == "Overdue" ==> InvoiceBadge(inv) == Blue && Billing.StatusColor(inv.status) == Red
    ensures inv.status == "paid" ==> InvoiceBadge(inv) == Blue && Billing.StatusColor(inv.status) == Green
  {
  }

  /** The portal's mock data: two pending approvals, so no empty state, and
      one paid invoice beside one awaiting payment. */
  lemma InitialPortal()
    ensures !ShowsAllCaughtUp(Approvals)
    ensures InvoiceBadge(Invoices[0]) == Green && InvoiceBadge(Invoices[1]) == Blue
    ensures TrendStyleOf(Kpis[3]) == TrendStyle(Red, true)
  {
  }

  /** The portal's state. */
  class State {
    var activeTab: string

    predicate Valid()
      reads this
    {
      activeTab in TabIds
    }

    constructor ()
      ensures Valid()
      ensures activeTab == "dashboard"
      ensures RenderContent(activeTab) == DashboardPanel
    {
      activeTab := "dashboard";
    }

    /** Clicking the tab at position `i`. */
    method ClickTab(i: nat)
      requires i < |TabIds|
      modifies this
      ensures Valid()
      ensures activeTab == TabIds[i]
      ensures Highlighted(TabIds, activeTab) == {i}
    {
      activeTab := TabIds[i];
      TabIdsDistinct();
      ClickHighlightsOnlyClicked(TabIds, i);
    }
  }

  /** In any reachable state exactly one tab is highlighted. */
  lemma ExactlyOneHighlighted(activeTab: string)
    requires activeTab in TabIds
    ensures |Highlighted(TabIds, activeTab)| == 1
  {
    TabIdsDistinct();
    HighlightedCount(TabIds, activeTab);
  }

}
