/** The top navigation bar: the link table, which depends on whether someone is
    signed in and on their role, the logo's target, and the highlight rule shared
    by the desktop and mobile menus. */
module Navbar {
  import opened Common
  import opened App

  datatype NavLink = NavLink(id: string, name: string, page: string)

  /** The Home link's page: the user and driver dashboards for those roles,
      the admin dashboard for every other role, null included. */
  function HomeTarget(role: Option<Role>): (page: string)
    ensures role == Some(RoleUser) ==> page == "user-dashboard"
    ensures role == Some(RoleDriver) ==> page == "driver-dashboard"
    ensures role !in {Some(RoleUser), Some(RoleDriver)} ==> page == "admin-dashboard"
  {
    if role == Some(RoleUser) then "user-dashboard"
    else if role == Some(RoleDriver) then "driver-dashboard"
    else "admin-dashboard"
  }

  /** `navLinks`. */
  function NavLinks(user: Option<User>): (links: seq<NavLink>)
    ensures user.Some? ==> |links| == 6 && links[5] == NavLink("feedback", "Feedback", "feedback")
    ensures user.None? ==> |links| == 5 && forall l :: l in links ==> l.id != "feedback"
    ensures |links| >= 5 && links[0].id == "home"
    ensures links[0].page == if user.Some? then HomeTarget(user.value.role) else "landing"
  {
    if user.Some? then
      [NavLink("home", "Home", HomeTarget(user.value.role)),
       NavLink("routes", "Routes", "routes"),
       NavLink("fares", "Fares", "fares"),
       NavLink("stops", "Stops", "stops"),
       NavLink("drivers", "Drivers", "drivers"),
       NavLink("feedback", "Feedback", "feedback")]
    else
      [NavLink("home", "Home", "landing"),
       NavLink("routes", "Routes", "routes"),
       NavLink("fares", "Fares", "fares"),
       NavLink("stops", "Stops", "stops"),
       NavLink("drivers", "Drivers", "drivers")]
  }

  /** Every link leads to a page the root switch routes: none of them falls back to
      the landing view except the signed-out Home link, which asks for it. */
  lemma NavLinksRouted(user: Option<User>)
    ensures forall l :: l in NavLinks(user) ==> RenderPage(l.page) != LandingView || l.page == "landing"
  {
    var links := NavLinks(user);
    forall k | 0 <= k < |links|
      ensures links[k].page in RoutedPages
    {
    }
  }

  /** Both tables have pairwise distinct ids and pairwise distinct pages, so a page
      names at most one link. */
  lemma NavLinksDistinct(user: Option<User>)
    ensures var links := NavLinks(user);
      && (forall i, j :: 0 <= i < j < |links| ==> links[i].id != links[j].id)
      && (forall i, j :: 0 <= i < j < |links| ==> links[i].page != links[j].page)
  {
    var links := NavLinks(user);
    // Each id and each page differs from every other in its length or its first letter.
    var idKeys := [(4, 'h'), (6, 'r'), (5, 'f'), (5, 's'), (7, 'd'), (8, 'f')];
    var home := links[0].page;
    var homeKey := (|home|, home[0]);
    assert homeKey in {(7, 'l'), (14, 'u'), (16, 'd'), (15, 'a')};
    var pageKeys := [homeKey, (6, 'r'), (5, 'f'), (5, 's'), (7, 'd'), (8, 'f')];
    forall k | 0 <= k < |links|
      ensures (|links[k].id|, links[k].id[0]) == idKeys[k]
      ensures (|links[k].page|, links[k].page[0]) == pageKeys[k]
    {
    }
    forall i, j | 0 <= i < j < |links|
      ensures links[i].id != links[j].id && links[i].page != links[j].page
    {
      assert idKeys[i] != idKeys[j] && pageKeys[i] != pageKeys[j];
    }
  }

  /** How the template literal `${user.role}` spells a role. */
  function RoleText(role: Option<Role>): string {
    match role
    case Some(RoleUser) => "user"
    case Some(RoleDriver) => "driver"
    case Some(RoleAdmin) => "admin"
    case None => "null"
  }

  /** The logo's target: `${user.role}-dashboard` when signed in, else the landing page. */
  function LogoTarget(user: Option<User>): (page: string)
    ensures user.None? ==> page == "landing"
    ensures user.Some? && user.value.role.Some? ==> page == HomeTarget(user.value.role)
    ensures user.Some? && user.value.role.None? ==> page == "null-dashboard"
  {
    if user.Some? then
      var page := RoleText(user.value.role) + "-dashboard";
      RoleDashboard(user.value.role);
      page
    else "landing"
  }

  /** `${role}-dashboard` spelled out for each role. */
  lemma RoleDashboard(role: Option<Role>)
    ensures role.Some? ==> RoleText(role) + "-dashboard" == HomeTarget(role)
    ensures role.None? ==> RoleText(role) + "-dashboard" == "null-dashboard"
  {
    match role
    case Some(RoleUser) => assert "user" + "-dashboard" == "user-dashboard";
    case Some(RoleDriver) => assert "driver" + "-dashboard" == "driver-dashboard";
    case Some(RoleAdmin) => assert "admin" + "-dashboard" == "admin-dashboard";
    case None => assert "null" + "-dashboard" == "null-dashboard";
  }

  /** A signed-in user without a role is sent by the logo to a page the root switch
      does not know, which shows the landing view. */
  lemma NullRoleLogoShowsLanding(name: string, email: string)
    ensures RenderPage(LogoTarget(Some(User(name, email, None)))) == LandingView
  {
    assert "null-dashboard" !in RoutedPages by {
      assert "null-dashboard"[0] == 'n';
    }
  }

  /** A link is highlighted, in the desktop and the mobile menu alike, when the
      current page is its page; with no current page nothing is highlighted. */
  predicate Highlighted(currentPage: Option<string>, link: NavLink) {
    currentPage == Some(link.page)
  }

  /** The indices of highlighted links. */
  function HighlightedIndices(currentPage: Option<string>, links: seq<NavLink>): (r: set<nat>)
    ensures forall i: nat :: i in r <==> i < |links| && Highlighted(currentPage, links[i])
  {
    set i: nat | i < |links| && Highlighted(currentPage, links[i])
  }

  /** At most one link is ever highlighted, and exactly one when the current page
      is one of the links' pages. */
  lemma {:induction false} AtMostOneHighlighted(user: Option<User>, currentPage: Option<string>)
    ensures |HighlightedIndices(currentPage, NavLinks(user))| <= 1
    ensures (exists l :: l in NavLinks(user) && Some(l.page) == currentPage) ==>
      |HighlightedIndices(currentPage, NavLinks(user))| == 1
  {
    var links := NavLinks(user);
    NavLinksDistinct(user);
    var h := HighlightedIndices(currentPage, links);
    if h != {} {
      var i :| i in h;
      assert h == {i} by {
        forall j | j in h ensures j == i {
        }
      }
    }
    if exists l :: l in links && Some(l.page) == currentPage {
      var l :| l in links && Some(l.page) == currentPage;
      var k :| 0 <= k < |links| && links[k] == l;
      assert k in h;
    }
  }
}
