/** The signed-in user's side menu (desktop) and bottom bar (mobile): a fixed
    list of seven items, the active-item rule, and the shortened mobile labels. */
module UserSidebar {
  import opened App

  datatype MenuItem = MenuItem(id: string, labelText: string)

  /** `menuItems`, icons left out. */
  function MenuItems(): (items: seq<MenuItem>)
    ensures |items| == 7
    ensures forall i, j :: 0 <= i < j < |items| ==> items[i].id != items[j].id
  {
    [MenuItem("user-dashboard", "Home"),
     MenuItem("routes", "Routes"),
     MenuItem("fares", "Fares"),
     MenuItem("stops", "Stops"),
     MenuItem("driver-feedback", "Driver Reviews"),
     MenuItem("feedback", "Feedback"),
     MenuItem("user-settings", "Settings")]
  }

  /** `isActive`, the same test in both menus. */
  predicate IsActive(currentPage: string, item: MenuItem) {
    currentPage == item.id
  }

  /** The page `onNavigate` receives when an item is clicked, in either menu. */
  function ClickTarget(item: MenuItem): string {
    item.id
  }

  /** `mobileLabel`: five labels are shortened for the bottom bar, the rest kept. */
  function MobileLabel(text: string): (m: string)
    ensures text == "Routes" ==> m == "Map"
    ensures text == "Fares" ==> m == "Fare"
    ensures text == "Driver Reviews" ==> m == "Drivers"
    ensures text == "Feedback" ==> m == "Help"
    ensures text == "Settings" ==> m == "Profile"
    ensures text !in {"Routes", "Fares", "Driver Reviews", "Feedback", "Settings"} ==> m == text
  {
    if text == "Routes" then "Map"
    else if text == "Fares" then "Fare"
    else if text == "Driver Reviews" then "Drivers"
    else if text == "Feedback" then "Help"
    else if text == "Settings" then "Profile"
    else text
  }

  /** The bottom bar shows seven distinct short labels, one per item, in order. */
  lemma MobileLabelsOfMenu()
    ensures forall i :: 0 <= i < 7 ==>
      MobileLabel(MenuItems()[i].labelText) == ["Home", "Map", "Fare", "Stops", "Drivers", "Help", "Profile"][i]
  {
  }

  /** Clicking an item and letting the root component navigate makes exactly that
      item the active one, in both menus. */
  lemma {:induction false} ClickActivatesOnlyThatItem(k: nat)
    requires k < 7
    ensures forall j :: 0 <= j < 7 ==>
      (IsActive(ClickTarget(MenuItems()[k]), MenuItems()[j]) <==> j == k)
  {
    var items := MenuItems();
    forall j | 0 <= j < 7
      ensures IsActive(ClickTarget(items[k]), items[j]) <==> j == k
    {
      if j < k { assert items[j].id != items[k].id; }
      else if k < j { assert items[k].id != items[j].id; }
    }
  }

  /** Whatever the current page, at most one item is active, and exactly one when
      the current page is one of the items' ids. */
  lemma AtMostOneActive(currentPage: string)
    ensures forall i, j ::
      (0 <= i < 7 && 0 <= j < 7 && IsActive(currentPage, MenuItems()[i]) &&
       IsActive(currentPage, MenuItems()[j])) ==> i == j
    ensures (exists i :: 0 <= i < 7 && MenuItems()[i].id == currentPage) ==>
      exists i :: 0 <= i < 7 && IsActive(currentPage, MenuItems()[i])
  {
  }

  /** Two of the seven items lead to page names the root switch does not route:
      "Driver Reviews" and "Settings" show the landing view; the other five are routed. */
  lemma UnroutedMenuItems()
    ensures RenderPage(ClickTarget(MenuItems()[4])) == LandingView
    ensures RenderPage(ClickTarget(MenuItems()[6])) == LandingView
    ensures forall i :: 0 <= i < 7 && i != 4 && i != 6 ==>
      RenderPage(ClickTarget(MenuItems()[i])) != LandingView
  {
    UnroutedPagesShowLanding();
  }
}
