/**
 * The tab bar (src/components/BottomNavigation.tsx): four fixed items; an
 * item is highlighted when the hosting screen's name equals the item's id,
 * and clicking it navigates to that id without payload.
 */
module BottomNavigation {
  import opened Wrappers
  import App

  datatype NavItem = NavItem(id: string, caption: string)

  /** `navItems`, in display order. */
  const NavItems: seq<NavItem> := [
    NavItem("home", "Inicio"),
    NavItem("explore", "Explorar"),
    NavItem("reservations", "Reservas"),
    NavItem("profile", "Perfil")
  ]

  /**
   * `isActive`: the names are compared as strings, which is the same as
   * comparing the screens they denote.
   */
  predicate IsActive(currentScreen: string, item: NavItem)
    ensures IsActive(currentScreen, item) <==> App.FromName(currentScreen) == App.FromName(item.id)
  {
    currentScreen == item.id
  }

  /** The bar has four items with pairwise different ids, so at most one is ever active. */
  lemma AtMostOneActive(currentScreen: string, i: int, j: int)
    requires 0 <= i < |NavItems| && 0 <= j < |NavItems|
    requires IsActive(currentScreen, NavItems[i]) && IsActive(currentScreen, NavItems[j])
    ensures i == j
  {
  }

  /** The position of the active item, if any. */
  function ActiveIndex(currentScreen: string): (r: Option<nat>)
    ensures r.Some? ==> r.value < |NavItems| && IsActive(currentScreen, NavItems[r.value])
    ensures r.None? <==> forall i :: 0 <= i < |NavItems| ==> !IsActive(currentScreen, NavItems[i])
  {
    if currentScreen == "home" then Some(0)
    else if currentScreen == "explore" then Some(1)
    else if currentScreen == "reservations" then Some(2)
    else if currentScreen == "profile" then Some(3)
    else None
  }

  /** Clicking an item: `onNavigate(item.id)`. */
  function ClickTarget(item: NavItem): (n: App.NavRequest)
    ensures App.Name(n.screen) == item.id && n.data == App.NoData
  {
    App.Go(App.FromName(item.id), App.NoData)
  }

  /**
   * The `currentScreen` each screen hands to its tab bar: only the home,
   * explore, reservations and profile screens show one. Each hands its own
   * name, so the tab bar always highlights one item.
   */
  function TabBarOf(v: App.View): (t: Option<string>)
    ensures t.Some? <==> v in {App.HomeView, App.ExploreView, App.ReservationsView, App.ProfileView}
    ensures t.Some? ==> App.Mounted(v, App.FromName(t.value), App.NoData)
    ensures t.Some? ==> ActiveIndex(t.value).Some?
  {
    match v
    case HomeView => Some("home")
    case ExploreView => Some("explore")
    case ReservationsView => Some("reservations")
    case ProfileView => Some("profile")
    case _ => None
  }

  /**
   * Clicking item `i` lands on a screen that shows the tab bar with item `i`
   * highlighted, and only that one.
   */
  lemma ClickActivatesItem(i: int)
    requires 0 <= i < |NavItems|
    ensures
      var n := ClickTarget(NavItems[i]);
      var v := App.Rendered(n.screen, n.data);
      v.Some? && TabBarOf(v.value) == Some(NavItems[i].id) &&
      ActiveIndex(NavItems[i].id) == Some(i)
  {
  }
}
