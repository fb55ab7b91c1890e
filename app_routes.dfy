// The client's route table: which page each path shows for the session at
// hand, and where it redirects instead. The session's role is the text the
// login returned ('operador' or 'digital').
module AppRoutes {
  import opened Wrappers

  /** The session as the authentication context holds it: still loading, and the role of the user, if any. */
  datatype Auth = Auth(isLoading: bool, role: Option<string>)

  datatype Path = LoginPath | RootPath | OperatorPath | DashboardPath | ConversationsPath(lineId: string) | ManagementPath | OtherPath

  datatype Page = LoginPage | OperatorPanel | DigitalDashboard | ConversationsScreen(lineId: string) | ManagementScreen | NotFound

  /** What a route element yields: the loading screen, a redirect, or a page. */
  datatype Screen = LoadingScreen | Redirect(to: Path) | Render(page: Page)

  /** `ProtectedRoute`: `None` for `allowedRoles` admits every role. */
  function ProtectedRoute(auth: Auth, allowedRoles: Option<seq<string>>, page: Page): (s: Screen)
    ensures s == LoadingScreen <==> auth.isLoading
    ensures s == Redirect(LoginPath) <==> !auth.isLoading && auth.role.None?
    ensures s == Redirect(RootPath) <==>
      !auth.isLoading && auth.role.Some? && allowedRoles.Some? && auth.role.value !in allowedRoles.value
    ensures s.Render? ==> s.page == page
  {
    if auth.isLoading then LoadingScreen
    else if auth.role.None? then Redirect(LoginPath)
    else if allowedRoles.Some? && auth.role.value !in allowedRoles.value then Redirect(RootPath)
    else Render(page)
  }

  /** Without a role list, every signed-in user gets the page. */
  lemma AnyRoleWithoutList(auth: Auth, page: Page)
    requires !auth.isLoading && auth.role.Some?
    ensures ProtectedRoute(auth, None, page) == Render(page)
  {
  }

  /** `RoleBasedRedirect`: operators to their panel, every other role to the dashboard. */
  function RoleBasedRedirect(auth: Auth): (s: Screen)
    ensures auth.isLoading ==> s == LoadingScreen
    ensures !auth.isLoading && auth.role.None? ==> s == Redirect(LoginPath)
    ensures !auth.isLoading && auth.role == Some("operador") ==> s == Redirect(OperatorPath)
    ensures !auth.isLoading && auth.role.Some? && auth.role != Some("operador") ==> s == Redirect(DashboardPath)
  {
    if auth.isLoading then LoadingScreen
    else if auth.role.None? then Redirect(LoginPath)
    else if auth.role.value == "operador" then Redirect(OperatorPath)
    else Redirect(DashboardPath)
  }

  /** `AppRoutes`: the element each path renders. */
  function Route(auth: Auth, path: Path): (s: Screen)
    ensures path == OtherPath ==> s == Render(NotFound)
    ensures s == LoadingScreen <==> auth.isLoading && path != LoginPath && path != OtherPath
  {
    match path
    case LoginPath => if auth.role.Some? then Redirect(RootPath) else Render(LoginPage)
    case RootPath => RoleBasedRedirect(auth)
    case OperatorPath => ProtectedRoute(auth, Some(["operador"]), OperatorPanel)
    case DashboardPath => ProtectedRoute(auth, Some(["digital"]), DigitalDashboard)
    case ConversationsPath(lineId) => ProtectedRoute(auth, Some(["digital"]), ConversationsScreen(lineId))
    case ManagementPath => ProtectedRoute(auth, Some(["digital"]), ManagementScreen)
    case OtherPath => Render(NotFound)
  }

  predicate BackOfficePage(p: Page) {
    p == DigitalDashboard || p.ConversationsScreen? || p == ManagementScreen
  }

  /**
   * Who sees which page: the back-office pages only a 'digital' user, the
   * operator panel only an 'operador', and the login page only a visitor
   * who is not signed in.
   */
  lemma PagesByRole(auth: Auth, path: Path)
    ensures var s := Route(auth, path);
      && (s.Render? && BackOfficePage(s.page) ==> !auth.isLoading && auth.role == Some("digital"))
      && (s.Render? && s.page == OperatorPanel ==> !auth.isLoading && auth.role == Some("operador"))
      && (s.Render? && s.page == LoginPage ==> auth.role.None?)
      && (!auth.isLoading && auth.role == Some("digital") && path in {DashboardPath, ManagementPath} ==> s.Render?)
      && (!auth.isLoading && auth.role == Some("digital") && path.ConversationsPath? ==> s == Render(ConversationsScreen(path.lineId)))
      && (!auth.isLoading && auth.role == Some("operador") && path == OperatorPath ==> s == Render(OperatorPanel))
      && (auth.role.Some? && path == LoginPath ==> s == Redirect(RootPath))
  {
  }

  /** The screen reached from `path` after following at most `hops` redirects. */
  function Follow(auth: Auth, path: Path, hops: nat): Screen
    decreases hops
  {
    match Route(auth, path)
    case Redirect(to) => if hops == 0 then Redirect(to) else Follow(auth, to, hops - 1)
    case other => other
  }

  /**
   * For a settled session of either role, or of nobody, every path ends on a
   * page within three redirects: no redirect loops.
   */
  lemma NoRedirectLoop(auth: Auth, path: Path)
    requires !auth.isLoading
    requires auth.role.None? || auth.role == Some("operador") || auth.role == Some("digital")
    ensures Follow(auth, path, 3).Render?
  {
  }

  /**
   * A signed-in user of any other role is sent from the root to the
   * dashboard and back again, forever.
   */
  lemma OtherRolesLoop(auth: Auth, hops: nat)
    requires !auth.isLoading && auth.role.Some?
    requires auth.role != Some("operador") && auth.role != Some("digital")
    ensures Route(auth, RootPath) == Redirect(DashboardPath)
    ensures Route(auth, DashboardPath) == Redirect(RootPath)
    ensures Follow(auth, RootPath, hops).Redirect?
  {
    FollowBounces(auth, hops);
  }

  lemma {:induction false} FollowBounces(auth: Auth, hops: nat)
    requires !auth.isLoading && auth.role.Some?
    requires auth.role != Some("operador") && auth.role != Some("digital")
    ensures Follow(auth, RootPath, hops).Redirect? && Follow(auth, DashboardPath, hops).Redirect?
    decreases hops
  {
    if hops > 0 {
      FollowBounces(auth, hops - 1);
    }
  }
}
