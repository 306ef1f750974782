/** The settings view: a column of tabs, the active tab's id, and the panel
    the active tab selects. */
module Settings {

  import opened Selection
  import opened TabBar

  /** The panels `renderContent` can show. */
  datatype Panel = OrganizationPanel | UsersPanel | NotificationsPanel
                 | BillingPanel | SecurityPanel | ApiKeysPanel

  /** The tab ids, in display order. */
  const TabIds: seq<string> := ["organization", "users", "notifications", "billing", "security", "integrations"]

  /** `renderContent`: each tab id selects its own panel, and any other id
      falls back to the organization panel. */
  function RenderContent(activeTab: string): (p: Panel)
    ensures activeTab !in TabIds ==> p == OrganizationPanel
    ensures p == OrganizationPanel <==> activeTab == "organization" || activeTab !in TabIds
  {
    match activeTab
    case "organization" => OrganizationPanel
    case "users" => UsersPanel
    case "notifications" => NotificationsPanel
    case "billing" => BillingPanel
    case "security" => SecurityPanel
    case "integrations" => ApiKeysPanel
    case _ => OrganizationPanel
  }

  /** The tab ids are distinct. */
  lemma TabIdsDistinct()
    ensures Distinct(TabIds)
  {
  }

  /** The position of the tab that shows a panel: the inverse of
      `RenderContent` over the tab ids. */
  function TabOf(p: Panel): (i: nat)
    ensures i < |TabIds| && RenderContent(TabIds[i]) == p
  {
    match p
    case OrganizationPanel => 0
    case UsersPanel => 1
    case NotificationsPanel => 2
    case BillingPanel => 3
    case SecurityPanel => 4
    case ApiKeysPanel => 5
  }

  /** Each tab shows its own panel: distinct tabs never share one. */
  lemma RenderContentOneToOne(i: nat)
    requires i < |TabIds|
    ensures TabOf(RenderContent(TabIds[i])) == i
  {
  }

  /** The view's state. */
  class State {
    var activeTab: string

    /** The active tab is always one of the tabs, so exactly one tab is
        highlighted. */
    predicate Valid()
      reads this
    {
      activeTab in TabIds
    }

    constructor ()
      ensures Valid()
      ensures activeTab == "organization"
      ensures RenderContent(activeTab) == OrganizationPanel
    {
      activeTab := "organization";
    }

    /** Clicking the tab at position `i`. */
    method ClickTab(i: nat)
      requires i < |TabIds|
      modifies this
      ensures Valid()
      ensures activeTab == TabIds[i]
      ensures Highlighted(TabIds, activeTab) == {i}
    {
      activeTab := TabIds[i];
      TabIdsDistinct();
      ClickHighlightsOnlyClicked(TabIds, i);
    }
  }

  /** In any reachable state exactly one tab is highlighted. */
  lemma ExactlyOneHighlighted(activeTab: string)
    requires activeTab in TabIds
    ensures |Highlighted(TabIds, activeTab)| == 1
  {
    TabIdsDistinct();
    HighlightedCount(TabIds, activeTab);
  }

}
