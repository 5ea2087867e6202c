/** The dashboard sidebar: the items each role sees, the views it may switch
    to, and which item is highlighted. */
module Sidebar {

  /** One item: the view it selects and the translation key of its label. */
  datatype NavItem = NavItem(view: string, labelKey: string)

  const JudgeItems := [
    NavItem("dashboard", "sidebar.judgesDashboard"),
    NavItem("analytics", "sidebar.judicialAnalytics")
  ]

  const AdvocateItems := [
    NavItem("dashboard", "sidebar.advocateDashboard"),
    NavItem("search", "sidebar.precedentSearch"),
    NavItem("builder", "sidebar.argumentBuilder")
  ]

  const CitizenItems := [
    NavItem("dashboard", "sidebar.citizenDashboard"),
    NavItem("case_filing", "sidebar.caseFiling")
  ]

  /** getNavItemsForRole: the three roles' lists, nothing for any other role. */
  function NavItemsForRole(role: string): seq<NavItem> {
    match role
    case "judge" => JudgeItems
    case "advocate" => AdvocateItems
    case "citizen" => CitizenItems
    case _ => []
  }

  function Views(items: seq<NavItem>): (views: seq<string>)
    ensures |views| == |items|
    ensures forall i :: 0 <= i < |items| ==> views[i] == items[i].view
  {
    if items == [] then [] else [items[0].view] + Views(items[1..])
  }

  /** The views each role's sidebar offers, in order. */
  lemma RoleViews(role: string)
    ensures role == "judge" ==> Views(NavItemsForRole(role)) == ["dashboard", "analytics"]
    ensures role == "advocate" ==> Views(NavItemsForRole(role)) == ["dashboard", "search", "builder"]
    ensures role == "citizen" ==> Views(NavItemsForRole(role)) == ["dashboard", "case_filing"]
    ensures role != "judge" && role != "advocate" && role != "citizen" ==> NavItemsForRole(role) == []
  {
  }

  /** The five views handleNavigation lets through. */
  predicate Whitelisted(view: string) {
    view == "dashboard" || view == "search" || view == "builder" || view == "analytics" || view == "case_filing"
  }

  /** Every list that is not empty starts with the dashboard, names each view
      once, and names only views the whitelist lets through, so every click on
      an item switches the view. */
  lemma NavListsWellFormed(role: string)
    ensures var items := NavItemsForRole(role);
      && (items != [] ==> items[0].view == "dashboard")
      && (forall i, j :: 0 <= i < j < |items| ==> items[i].view != items[j].view)
      && (forall i :: 0 <= i < |items| ==> Whitelisted(items[i].view))
  {
  }

  /** The item at `i` is highlighted when its view is the active one. */
  predicate IsActive(items: seq<NavItem>, i: int, activeView: string)
    requires 0 <= i < |items|
  {
    items[i].view == activeView
  }

  /** In any role's sidebar at most one item is highlighted. */
  lemma AtMostOneActive(role: string, activeView: string, i: int, j: int)
    requires 0 <= i < |NavItemsForRole(role)| && 0 <= j < |NavItemsForRole(role)|
    requires IsActive(NavItemsForRole(role), i, activeView) && IsActive(NavItemsForRole(role), j, activeView)
    ensures i == j
  {
    NavListsWellFormed(role);
  }

  /** The active view the sidebar reads and sets through its parent. */
  class ViewSelection {
    var activeView: string

    constructor (initial: string)
      ensures activeView == initial
    {
      activeView := initial;
    }

    /** handleNavigation: a whitelisted view becomes active; any other leaves
        the active view as it was. */
    method HandleNavigation(view: string)
      modifies this
      ensures Whitelisted(view) ==> activeView == view
      ensures !Whitelisted(view) ==> activeView == old(activeView)
    {
      if Whitelisted(view) {
        activeView := view;
      }
    }
  }
}
