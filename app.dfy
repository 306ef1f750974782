/** The application shell: which module the main area shows, whether the
    sidebar and top bar are drawn, how far the content is pushed right, and
    the shell state the sidebar's requests update. */
module App {

  import opened Sidebar

  /** The modules the main area can show. */
  datatype View = DashboardView | ClientsView | CampaignsView | ReportsView
                | BillingView | IntegrationsView | SettingsView | ClientPortalView

  /** `renderActiveModule`: the client portal whenever portal mode is on;
      otherwise the module named by the id, and the dashboard for an id no
      case names. */
  function RenderActiveModule(isClientPortal: bool, activeModule: string): (v: View)
    ensures isClientPortal ==> v == ClientPortalView
    ensures !isClientPortal ==> v != ClientPortalView
    ensures !isClientPortal && activeModule !in MenuIds ==> v == DashboardView
  {
    MenuIdsAre();
    if isClientPortal then ClientPortalView
    else
      match activeModule
      case "dashboard" => DashboardView
      case "clients" => ClientsView
      case "campaigns" => CampaignsView
      case "reports" => ReportsView
      case "billing" => BillingView
      case "integrations" => IntegrationsView
      case "settings" => SettingsView
      case _ => DashboardView
  }

  /** The menu position that opens a module: the inverse of the dispatch
      over the sidebar's ids. */
  function MenuPositionOf(v: View): (i: nat)
    requires v != ClientPortalView
    ensures i < |MenuIds| && RenderActiveModule(false, MenuIds[i]) == v
  {
    MenuIdsAre();
    match v
    case DashboardView => 0
    case ClientsView => 1
    case CampaignsView => 2
    case ReportsView => 3
    case BillingView => 4
    case IntegrationsView => 5
    case SettingsView => 6
  }

  /** Every menu entry has its own case in the dispatch: distinct entries
      open distinct modules. */
  lemma EveryMenuItemDispatched(i: nat)
    requires i < |MenuIds|
    ensures MenuPositionOf(RenderActiveModule(false, MenuIds[i])) == i
  {
    MenuIdsAre();
  }

  /** The left margin of the content area. */
  datatype Offset = NoOffset | Ml16 | Ml64

  /** What the shell draws around the main area. */
  datatype Layout = Layout(sidebarShown: bool, topNavShown: bool, offset: Offset)

  function LayoutOf(isClientPortal: bool, collapsed: bool): (l: Layout)
    ensures l.sidebarShown <==> !isClientPortal
    ensures l.topNavShown <==> !isClientPortal
    ensures l.offset == NoOffset <==> isClientPortal
    ensures l.offset == Ml16 <==> !isClientPortal && collapsed
  {
    Layout(!isClientPortal, !isClientPortal,
           if isClientPortal then NoOffset else if collapsed then Ml16 else Ml64)
  }

  /** Outside the portal the content is pushed right by exactly the
      sidebar's width. */
  lemma OffsetMatchesSidebar(collapsed: bool)
    ensures LayoutOf(false, collapsed).offset == (if WidthOf(collapsed) == W16 then Ml16 else Ml64)
  {
  }

  /** The shell's state. The portal flag never changes after start-up. */
  class Shell {
    var activeModule: string
    var sidebarCollapsed: bool
    const isClientPortal: bool

    /** The module the main area currently shows. */
    function CurrentView(): View
      reads this
    {
      RenderActiveModule(isClientPortal, activeModule)
    }

    constructor (isClientPortal: bool)
      ensures this.isClientPortal == isClientPortal
      ensures activeModule == "dashboard" && !sidebarCollapsed
      ensures CurrentView() == (if isClientPortal then ClientPortalView else DashboardView)
    {
      this.isClientPortal := isClientPortal;
      activeModule := "dashboard";
      sidebarCollapsed := false;
    }

    /** Carries out a request from the sidebar. */
    method Handle(r: Request)
      modifies this
      ensures r.SetActiveModule? ==> activeModule == r.id && sidebarCollapsed == old(sidebarCollapsed)
      ensures r.SetCollapsed? ==> sidebarCollapsed == r.collapsed && activeModule == old(activeModule)
    {
      match r
      case SetActiveModule(id) => activeModule := id;
      case SetCollapsed(c) => sidebarCollapsed := c;
    }

    /** Clicking menu entry `i` shows that entry's module, unless the
        portal is on. */
    method ClickMenuItem(i: nat)
      requires i < |MenuItems|
      modifies this
      ensures activeModule == MenuIds[i] && sidebarCollapsed == old(sidebarCollapsed)
      ensures !isClientPortal ==> MenuPositionOf(CurrentView()) == i
      ensures isClientPortal ==> CurrentView() == ClientPortalView
    {
      Handle(ClickItem(i));
      EveryMenuItemDispatched(i);
    }

    /** The collapse button flips the sidebar and keeps the module. */
    method ToggleCollapse()
      modifies this
      ensures sidebarCollapsed == !old(sidebarCollapsed)
      ensures activeModule == old(activeModule)
    {
      Handle(PressCollapse(sidebarCollapsed));
    }
  }

}
