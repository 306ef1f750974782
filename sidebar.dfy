/** The sidebar: the menu of modules, which entry is active, what each entry
    shows when the sidebar is collapsed or expanded, and the requests its
    buttons send to the shell. The sidebar keeps no state of its own. */
module Sidebar {

  import opened Options
  import opened Selection
  import opened TabBar

  datatype MenuItem = MenuItem(id: string, caption: string)

  /** The menu, in display order. */
  const MenuItems: seq<MenuItem> := [
    MenuItem("dashboard", "Dashboard"),
    MenuItem("clients", "Clients"),
    MenuItem("campaigns", "Campaigns"),
    MenuItem("reports", "Reports"),
    MenuItem("billing", "Billing"),
    MenuItem("integrations", "Integrations"),
    MenuItem("settings", "Settings")
  ]

  /** The ids of a menu, position by position. */
  function Ids(items: seq<MenuItem>): (ids: seq<string>)
    ensures |ids| == |items|
    ensures forall i :: 0 <= i < |items| ==> ids[i] == items[i].id
  {
    seq(|items|, i requires 0 <= i < |items| => items[i].id)
  }

  const MenuIds: seq<string> := Ids(MenuItems)

  lemma MenuIdsAre()
    ensures MenuIds == ["dashboard", "clients", "campaigns", "reports", "billing", "integrations", "settings"]
  {
  }

  /** The seven menu ids are distinct. */
  lemma MenuIdsDistinct()
    ensures Distinct(MenuIds)
  {
    MenuIdsAre();
  }

  /** What one menu entry shows. */
  datatype ItemView = ItemView(highlighted: bool, labelShown: bool, dotShown: bool, tooltip: Option<string>)

  function ViewItem(item: MenuItem, activeModule: string, collapsed: bool): (v: ItemView)
    ensures v.highlighted <==> activeModule == item.id
    ensures v.labelShown <==> !collapsed
    ensures v.dotShown <==> v.highlighted && !collapsed
    ensures v.tooltip.Some? <==> collapsed
    ensures v.tooltip.Some? ==> v.tooltip.value == item.caption
  {
    var isActive := activeModule == item.id;
    ItemView(isActive, !collapsed, isActive && !collapsed, if collapsed then Some(item.caption) else None)
  }

  /** At most one entry is active, and exactly one when the active module
      is on the menu. */
  lemma AtMostOneActive(activeModule: string)
    ensures |Highlighted(MenuIds, activeModule)| == (if activeModule in MenuIds then 1 else 0)
    ensures forall i, j :: 0 <= i < j < |MenuItems| && ViewItem(MenuItems[i], activeModule, false).highlighted ==> !ViewItem(MenuItems[j], activeModule, false).highlighted
  {
    MenuIdsDistinct();
    HighlightedCount(MenuIds, activeModule);
  }

  /** A collapsed sidebar shows no label and no active dot. */
  lemma CollapsedHidesLabels(activeModule: string)
    ensures forall i :: 0 <= i < |MenuItems| ==> !ViewItem(MenuItems[i], activeModule, true).labelShown && !ViewItem(MenuItems[i], activeModule, true).dotShown
  {
  }

  /** The requests the sidebar's buttons send to the shell. */
  datatype Request = SetActiveModule(id: string) | SetCollapsed(collapsed: bool)

  /** Clicking the entry at position `i` asks for that entry's module. */
  function ClickItem(i: nat): (r: Request)
    requires i < |MenuItems|
    ensures r.SetActiveModule? && r.id == MenuIds[i]
  {
    SetActiveModule(MenuItems[i].id)
  }

  /** The collapse button asks for the opposite of the current state. */
  function PressCollapse(collapsed: bool): (r: Request)
    ensures r.SetCollapsed? && r.collapsed != collapsed
  {
    SetCollapsed(!collapsed)
  }

  /** Pressing the collapse button twice asks for the original state back. */
  lemma PressCollapseTwice(collapsed: bool)
    ensures PressCollapse(PressCollapse(collapsed).collapsed).collapsed == collapsed
  {
  }

  /** The sidebar's width class. */
  datatype Width = W16 | W64

  function WidthOf(collapsed: bool): (w: Width)
    ensures w == W16 <==> collapsed
  {
    if collapsed then W16 else W64
  }

  /** The brand name beside the collapse button shows only when expanded. */
  function ShowsBrand(collapsed: bool): (shown: bool)
    ensures shown <==> WidthOf(collapsed) == W64
  {
    !collapsed
  }

}
