/** The navigation sidebar: its fixed list of items, the key each item is
    highlighted under, the route a click reports, and the collapse toggle. */
module Sidebar {
  import opened Seqs
  import opened Js

  /** An entry of `SidebarData`; its icon and (always empty) `subNav` are
      not modelled. */
  datatype SidebarItem = SidebarItem(title: string, path: string)

  /** `SidebarData`, in display order */
  const SidebarData: seq<SidebarItem> := [
    SidebarItem("Dashboard", "/"),
    SidebarItem("Fleet Management", "/fleet"),
    SidebarItem("Mission Schedule", "/missions"),
    SidebarItem("Personnel", "/personnel"),
    SidebarItem("Parts Inventory", "/inventory"),
    SidebarItem("Flight Test", "/flight-test"),
    SidebarItem("Reports", "/reports"),
    SidebarItem("Maintenance Schedule", "/maintenance"),
    SidebarItem("Repair Tracker", "/repairs"),
    SidebarItem("Maintenance Builder", "/maintenance-builder"),
    SidebarItem("107 Process", "/process107")
  ]

  /** `itemPath`: `'/'` is highlighted as `dashboard`, every other path with
      its first `/` removed. */
  function ItemPath(item: SidebarItem): string
  {
    if item.path == "/" then "dashboard" else RemoveFirst(item.path, '/')
  }

  /** The keys of the eleven items, in order */
  const ItemPaths: seq<string> := [
    "dashboard", "fleet", "missions", "personnel", "inventory", "flight-test",
    "reports", "maintenance", "repairs", "maintenance-builder", "process107"
  ]

  /** The root item is highlighted as `dashboard`; every other item's key is
      its path without the leading `/`. */
  lemma ItemPathOfData(i: nat)
    requires i < |SidebarData|
    ensures ItemPath(SidebarData[i]) == ItemPaths[i]
    ensures i == 0 ==> ItemPath(SidebarData[i]) == "dashboard"
    ensures i != 0 ==> SidebarData[i].path == "/" + ItemPath(SidebarData[i])
  {
    if i != 0 {
      PathIsSlashKey(i);
      var p := SidebarData[i].path;
      assert IndexOf(p, '/') == 0;
      assert p == [p[0]] + p[1..];
    }
  }

  /** Below the root, each path is `/` followed by its key. */
  lemma PathIsSlashKey(i: nat)
    requires 1 <= i < |SidebarData|
    ensures |SidebarData[i].path| >= 1 && SidebarData[i].path[0] == '/'
    ensures SidebarData[i].path[1..] == ItemPaths[i]
  {
    if i <= 5 { PathIsSlashKeyLow(i); } else { PathIsSlashKeyHigh(i); }
  }

  lemma PathIsSlashKeyLow(i: nat)
    requires 1 <= i <= 5
    ensures |SidebarData[i].path| >= 1 && SidebarData[i].path[0] == '/'
    ensures SidebarData[i].path[1..] == ItemPaths[i]
  {
    if i == 1 { assert SidebarData[1].path[1..] == "fleet"; }
    else if i == 2 { assert SidebarData[2].path[1..] == "missions"; }
    else if i == 3 { assert SidebarData[3].path[1..] == "personnel"; }
    else if i == 4 { assert SidebarData[4].path[1..] == "inventory"; }
    else { assert SidebarData[5].path[1..] == "flight-test"; }
  }

  lemma PathIsSlashKeyHigh(i: nat)
    requires 6 <= i < |SidebarData|
    ensures |SidebarData[i].path| >= 1 && SidebarData[i].path[0] == '/'
    ensures SidebarData[i].path[1..] == ItemPaths[i]
  {
    if i == 6 { assert SidebarData[6].path[1..] == "reports"; }
    else if i == 7 { assert SidebarData[7].path[1..] == "maintenance"; }
    else if i == 8 { assert SidebarData[8].path[1..] == "repairs"; }
    else if i == 9 { assert SidebarData[9].path[1..] == "maintenance-builder"; }
    else { assert SidebarData[10].path[1..] == "process107"; }
  }

  /** For any path that starts with `/` and is not the root, the key is the
      rest of the path. */
  lemma ItemPathDropsSlash(item: SidebarItem)
    requires |item.path| >= 1 && item.path[0] == '/' && item.path != "/"
    ensures ItemPath(item) == item.path[1..]
  {
  }

  /** Length, first and fourth letter: already these tell the keys apart. */
  function KeySignature(k: string): (int, char, char)
    requires |k| >= 4
  {
    (|k|, k[0], k[3])
  }

  lemma KeysDistinct(i: nat, j: nat)
    requires i < j < |ItemPaths|
    ensures ItemPaths[i] != ItemPaths[j]
  {
    assert KeySignature(ItemPaths[i]) != KeySignature(ItemPaths[j]);
  }

  /** The eleven items' keys are pairwise distinct. */
  lemma ItemPathsDistinct(i: nat, j: nat)
    requires i < j < |SidebarData|
    ensures ItemPath(SidebarData[i]) != ItemPath(SidebarData[j])
  {
    ItemPathOfData(i);
    ItemPathOfData(j);
    KeysDistinct(i, j);
  }

  /** `currentView === itemPath`: the item is highlighted */
  predicate IsActive(item: SidebarItem, currentView: string)
  {
    currentView == ItemPath(item)
  }

  /** The positions of the highlighted items */
  function ActiveIndices(currentView: string): set<nat>
  {
    set i: nat | i < |SidebarData| && IsActive(SidebarData[i], currentView)
  }

  /** At most one item is highlighted, whatever the view. */
  lemma AtMostOneActive(currentView: string)
    ensures |ActiveIndices(currentView)| <= 1
    ensures forall i, j :: i in ActiveIndices(currentView) && j in ActiveIndices(currentView) ==> i == j
  {
    var r := ActiveIndices(currentView);
    forall i, j | i in r && j in r ensures i == j {
      if i < j { ItemPathsDistinct(i, j); }
      if j < i { ItemPathsDistinct(j, i); }
    }
    if r != {} {
      var i :| i in r;
      assert r == {i};
    }
  }

  /** The route a click on the item reports: its raw path, not its key. */
  function ClickRoute(item: SidebarItem): string
  {
    item.path
  }

  /** Every reported route starts with `/`, so no route is ever equal to the
      key its item is highlighted under. */
  lemma ClickRouteIsNotKey(i: nat)
    requires i < |SidebarData|
    ensures |ClickRoute(SidebarData[i])| >= 1 && ClickRoute(SidebarData[i])[0] == '/'
    ensures ClickRoute(SidebarData[i]) != ItemPath(SidebarData[i])
  {
    ItemPathOfData(i);
    if i == 0 {
      assert ClickRoute(SidebarData[0]) == "/";
    } else {
      assert |ClickRoute(SidebarData[i])| == |ItemPath(SidebarData[i])| + 1;
    }
  }

  /** The sidebar's own state */
  class SidebarState {
    var collapsed: bool

    constructor ()
      ensures !collapsed
    {
      collapsed := false;
    }

    /** The collapse button */
    method Toggle()
      modifies this
      ensures collapsed == !old(collapsed)
    {
      collapsed := !collapsed;
    }

    /** The item's title is rendered next to its icon */
    predicate ShowsTitle()
      reads this
    {
      !collapsed
    }

    /** The `title` attribute (the tooltip) of an item */
    function Tooltip(item: SidebarItem): Option<string>
      reads this
    {
      if collapsed then Some(item.title) else None
    }
  }

  /** Toggling twice restores the original state; in each state exactly one
      of the visible title and the tooltip is present. */
  method ToggleTwice(s: SidebarState, item: SidebarItem)
    modifies s
    ensures s.collapsed == old(s.collapsed)
    ensures s.ShowsTitle() <==> s.Tooltip(item) == None
  {
    s.Toggle();
    s.Toggle();
  }

  /** The title shows exactly when the sidebar is expanded, and the tooltip,
      holding the title, exactly when it is collapsed. */
  lemma TitleXorTooltip(s: SidebarState, item: SidebarItem)
    ensures s.ShowsTitle() <==> !s.collapsed
    ensures s.Tooltip(item).Some? <==> s.collapsed
    ensures s.Tooltip(item).Some? ==> s.Tooltip(item).value == item.title
  {
  }
}
