/**
 * The top navigation bar (src/components/layout/Navigation.tsx): its links and
 * their active state, the role's brand, the mobile menu flag and the logout buttons.
 */
module Navigation {
  import opened Wrappers
  import opened Auth
  import opened Icons
  import App

  datatype NavItem = NavItem(name: string, href: string, icon: Icon)

  /** `navigationItems.common`. */
  const NavigationItems: seq<NavItem> := [
    NavItem("Home", "/", Home),
    NavItem("Syllabus", "/syllabus", BookOpen),
    NavItem("Attendance", "/attendance", Calendar),
    NavItem("Roadmap", "/roadmap", Map),
    NavItem("Tools", "/tools", Wrench)
  ]

  /** `isActive(path)`: exact comparison with the current pathname. */
  predicate IsActive(pathname: string, path: string)
  {
    pathname == path
  }

  /** The links' targets are all different. */
  lemma HrefsDistinct()
    ensures forall i, j :: 0 <= i < j < |NavigationItems| ==> NavigationItems[i].href != NavigationItems[j].href
  {
  }

  /** At most one link is highlighted, whatever the pathname. */
  lemma AtMostOneActive(pathname: string, i: nat, j: nat)
    requires i < |NavigationItems| && j < |NavigationItems|
    requires IsActive(pathname, NavigationItems[i].href) && IsActive(pathname, NavigationItems[j].href)
    ensures i == j
  {
    HrefsDistinct();
  }

  /**
   * The links point at exactly the five explicit routes of the route table: a
   * path is some link's target if and only if it does not route to the not-found page.
   */
  lemma HrefsAreTheRoutes(path: string)
    ensures (exists k :: 0 <= k < |NavigationItems| && NavigationItems[k].href == path) <==>
      App.Route(path) != App.NotFoundPage
  {
    if App.Route(path) != App.NotFoundPage {
      assert path in App.RoutePaths;
      var k :| 0 <= k < |App.RoutePaths| && App.RoutePaths[k] == path;
      assert NavigationItems[k].href == path;
    }
  }

  /** `getRoleIcon`: the shield for the administrator, the people icon for the intern. */
  function RoleIcon(r: Role): (i: Icon)
    ensures i.Shield? <==> r.Admin?
    ensures i.Users? <==> r.Intern?
  {
    if r == Admin then Shield else Users
  }

  /** The brand label `IMS {user.role === 'admin' ? 'Admin' : 'Portal'}`. */
  function BrandLabel(r: Role): (s: string)
    ensures s == "IMS Admin" <==> r == Admin
    ensures s == "IMS Portal" <==> r == Intern
  {
    "IMS " + (if r == Admin then "Admin" else "Portal")
  }

  /** What the bar shows: brand, icon, the user, each link with its highlight, and the mobile menu. */
  datatype NavBar = NavBar(
    brand: string,
    icon: Icon,
    userName: string,
    roleName: string,
    links: seq<(NavItem, bool)>,
    mobileMenuShown: bool)

  /**
   * The rendered bar: nothing without a user; otherwise the role's brand and icon,
   * every link highlighted exactly when it is the current path, and the mobile
   * menu exactly when it is open.
   */
  function Render(user: Option<User>, pathname: string, mobileMenuOpen: bool): (v: Option<NavBar>)
    ensures v.None? <==> user.None?
    ensures v.Some? ==> v.value.brand == BrandLabel(user.value.role) && v.value.icon == RoleIcon(user.value.role)
    ensures v.Some? ==> v.value.userName == user.value.name && v.value.mobileMenuShown == mobileMenuOpen
    ensures v.Some? ==> v.value.roleName == RoleLiteral(user.value.role)
    ensures v.Some? ==> |v.value.links| == |NavigationItems|
    ensures v.Some? ==> forall k :: 0 <= k < |NavigationItems| ==>
      v.value.links[k].0 == NavigationItems[k] && (v.value.links[k].1 <==> pathname == NavigationItems[k].href)
  {
    if user.None? then None
    else
      var u := user.value;
      var links := seq(|NavigationItems|, k requires 0 <= k < |NavigationItems| =>
        (NavigationItems[k], IsActive(pathname, NavigationItems[k].href)));
      Some(NavBar(BrandLabel(u.role), RoleIcon(u.role), u.name, RoleLiteral(u.role), links, mobileMenuOpen))
  }

  /** The bar's own state: whether the mobile menu is open. */
  class NavigationBar {
    var isMobileMenuOpen: bool

    /** The menu starts closed. */
    constructor ()
      ensures !isMobileMenuOpen
    {
      isMobileMenuOpen := false;
    }

    /** The menu button flips the flag. */
    method ToggleMobileMenu()
      modifies this
      ensures isMobileMenuOpen == !old(isMobileMenuOpen)
    {
      isMobileMenuOpen := !isMobileMenuOpen;
    }

    /** Clicking a mobile link closes the menu; the link's target is the path navigated to. */
    method ClickMobileItem(item: NavItem) returns (path: string)
      modifies this
      ensures !isMobileMenuOpen && path == item.href
    {
      isMobileMenuOpen := false;
      path := item.href;
    }

    /** Both logout buttons, desktop and mobile, call the provider's `logout`. */
    method ClickLogout(auth: AuthProvider)
      modifies auth
      ensures auth.Valid()
      ensures auth.user == None && auth.selectedRole == None
      ensures isMobileMenuOpen == old(isMobileMenuOpen)
    {
      auth.Logout();
    }
  }
}
