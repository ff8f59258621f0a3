/** The root component: the signed-in user, the current page name, the three
    handlers that change them, and the switch that maps a page name to a view. */
module App {
  import opened Common

  /** The three non-null values of `UserRole`; the null role is `None`. */
  datatype Role = RoleUser | RoleDriver | RoleAdmin

  datatype User = User(name: string, email: string, role: Option<Role>)

  /** The views `renderPage` can produce, one per case of its switch. */
  datatype View =
    | LandingView | LoginView
    | UserDashboardView | DriverDashboardView | AdminDashboardView
    | RoutesView | FaresView | StopsView | DriversView | FeedbackView

  /** The page name each case of the switch is written for. */
  function PageName(v: View): string {
    match v
    case LandingView => "landing"
    case LoginView => "login"
    case UserDashboardView => "user-dashboard"
    case DriverDashboardView => "driver-dashboard"
    case AdminDashboardView => "admin-dashboard"
    case RoutesView => "routes"
    case FaresView => "fares"
    case StopsView => "stops"
    case DriversView => "drivers"
    case FeedbackView => "feedback"
  }

  /** The ten page names that have a case of their own. */
  const RoutedPages: seq<string> :=
    ["landing", "login", "user-dashboard", "driver-dashboard", "admin-dashboard",
     "routes", "fares", "stops", "drivers", "feedback"]

  /** `renderPage`: the view for a routed page name, the landing view for any other. */
  function RenderPage(page: string): (v: View)
    ensures page in RoutedPages ==> PageName(v) == page
    ensures page !in RoutedPages ==> v == LandingView
  {
    match page
    case "landing" => LandingView
    case "login" => LoginView
    case "user-dashboard" => UserDashboardView
    case "driver-dashboard" => DriverDashboardView
    case "admin-dashboard" => AdminDashboardView
    case "routes" => RoutesView
    case "fares" => FaresView
    case "stops" => StopsView
    case "drivers" => DriversView
    case "feedback" => FeedbackView
    case _ => LandingView
  }

  /** Every view is reached from its own page name and from no other routed name. */
  lemma RenderPageRoundTrip(v: View)
    ensures PageName(v) in RoutedPages
    ensures RenderPage(PageName(v)) == v
    ensures forall p :: p in RoutedPages && RenderPage(p) == v ==> p == PageName(v)
  {
  }

  /** Page names that components navigate to but the switch does not handle:
      each one silently shows the landing page. */
  lemma UnroutedPagesShowLanding()
    ensures RenderPage("driver-feedback") == LandingView
    ensures RenderPage("user-settings") == LandingView
    ensures RenderPage("scan-driver") == LandingView
  {
    assert "driver-feedback" !in RoutedPages by {
      assert "driver-feedback"[0] == 'd' && |"driver-feedback"| == 15;
    }
    assert "user-settings" !in RoutedPages by {
      assert |"user-settings"| == 13;
    }
    assert "scan-driver" !in RoutedPages by {
      assert "scan-driver"[0] == 's' && |"scan-driver"| == 11;
    }
  }

  /** The dashboard page `handleLogin` moves to for a role, or `None` when the role
      is null and the page stays as it was. */
  function LoginTarget(role: Option<Role>): (page: Option<string>)
    ensures page.Some? <==> role.Some?
    ensures role == Some(RoleUser) ==> page == Some("user-dashboard")
    ensures role == Some(RoleDriver) ==> page == Some("driver-dashboard")
    ensures role == Some(RoleAdmin) ==> page == Some("admin-dashboard")
    ensures page.Some? ==>
      page.value in RoutedPages &&
      RenderPage(page.value) in {UserDashboardView, DriverDashboardView, AdminDashboardView}
  {
    match role
    case Some(RoleUser) => Some("user-dashboard")
    case Some(RoleDriver) => Some("driver-dashboard")
    case Some(RoleAdmin) => Some("admin-dashboard")
    case None => None
  }

  /** The two state cells of the root component. */
  class AppState {
    var currentPage: string
    var user: Option<User>

    constructor ()
      ensures currentPage == "landing" && user == None
    {
      currentPage := "landing";
      user := None;
    }

    /** What the root component renders in its current state. */
    function CurrentView(): View
      reads this
    {
      RenderPage(currentPage)
    }

    /** `handleLogin`: store the user and go to the role's dashboard, if any. */
    method HandleLogin(userData: User)
      modifies this
      ensures user == Some(userData)
      ensures userData.role == Some(RoleUser) ==> currentPage == "user-dashboard"
      ensures userData.role == Some(RoleDriver) ==> currentPage == "driver-dashboard"
      ensures userData.role == Some(RoleAdmin) ==> currentPage == "admin-dashboard"
      ensures userData.role == None ==> currentPage == old(currentPage)
      ensures currentPage == match LoginTarget(userData.role)
                             case Some(p) => p
                             case None => old(currentPage)
    {
      user := Some(userData);
      if userData.role == Some(RoleUser) {
        currentPage := "user-dashboard";
      } else if userData.role == Some(RoleDriver) {
        currentPage := "driver-dashboard";
      } else if userData.role == Some(RoleAdmin) {
        currentPage := "admin-dashboard";
      }
    }

    /** `handleLogout`: forget the user and return to the landing page. */
    method HandleLogout()
      modifies this
      ensures user == None && currentPage == "landing"
      ensures CurrentView() == LandingView
    {
      user := None;
      currentPage := "landing";
    }

    /** `handleNavigate`: any string becomes the current page; the user is kept. */
    method HandleNavigate(page: string)
      modifies this
      ensures currentPage == page && user == old(user)
      ensures CurrentView() == RenderPage(page)
    {
      currentPage := page;
    }
  }

  /** Navigating twice to the same page leaves the same state as navigating once:
      that page, the same user, the same view. */
  method NavigateTwice(app: AppState, page: string)
    modifies app
    ensures app.currentPage == page && app.user == old(app.user)
    ensures app.CurrentView() == RenderPage(page)
  {
    app.HandleNavigate(page);
    app.HandleNavigate(page);
  }

  /** Wherever the user has navigated, logging in and then out always ends on the
      landing page signed out. */
  method NavigationScenario(app: AppState, page: string, u: User)
    modifies app
    ensures app.user == None && app.currentPage == "landing"
  {
    NavigateTwice(app, page);
    app.HandleLogin(u);
    assert app.user == Some(u);
    app.HandleLogout();
  }
}
