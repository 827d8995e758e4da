/**
 * `AppRoutes` (src/App.tsx): the gate that picks role selection, the login
 * form or the authenticated shell, and the shell's path table.
 */
module App {
  import opened Wrappers
  import opened Auth

  /** The content screens of the shell's route table. */
  datatype Page = DashboardPage | SyllabusPage | AttendancePage | RoadmapPage | ToolsPage | NotFoundPage

  /** What `AppRoutes` renders. */
  datatype Screen =
    | RoleSelectionScreen
    | LoginScreen(role: Role)
    | ShellScreen(page: Page)

  /** The five explicit paths of the route table, in declaration order. */
  const RoutePaths: seq<string> := ["/", "/syllabus", "/attendance", "/roadmap", "/tools"]

  /** The `<Routes>` table: five fixed paths and the `*` catch-all. */
  function Route(path: string): (p: Page)
    ensures p == DashboardPage <==> path == "/"
    ensures p == SyllabusPage <==> path == "/syllabus"
    ensures p == AttendancePage <==> path == "/attendance"
    ensures p == RoadmapPage <==> path == "/roadmap"
    ensures p == ToolsPage <==> path == "/tools"
    ensures p == NotFoundPage <==> path !in RoutePaths
  {
    if path == "/" then DashboardPage
    else if path == "/syllabus" then SyllabusPage
    else if path == "/attendance" then AttendancePage
    else if path == "/roadmap" then RoadmapPage
    else if path == "/tools" then ToolsPage
    else NotFoundPage
  }

  /** Different explicit paths lead to different screens. */
  lemma RouteInjectiveOnPaths(p: string, q: string)
    requires p in RoutePaths && q in RoutePaths && p != q
    ensures Route(p) != Route(q) && Route(p) != NotFoundPage
  {
  }

  /**
   * `AppRoutes`: no user and no role gives role selection; no user but a role
   * gives the login form for exactly that role; a user gives the shell at the
   * routed page, whatever the selected role.
   */
  function AppRoutes(user: Option<User>, selectedRole: Option<Role>, path: string): (s: Screen)
    ensures s.RoleSelectionScreen? <==> user.None? && selectedRole.None?
    ensures s.LoginScreen? <==> user.None? && selectedRole.Some?
    ensures s.LoginScreen? ==> selectedRole == Some(s.role)
    ensures s.ShellScreen? <==> user.Some?
    ensures s.ShellScreen? ==> s.page == Route(path)
  {
    if user.None? && selectedRole.None? then RoleSelectionScreen
    else if user.None? then LoginScreen(selectedRole.value)
    else ShellScreen(Route(path))
  }

  /** The screen for a session value. */
  function Render(s: Session, path: string): Screen
  {
    AppRoutes(s.user, s.selectedRole, path)
  }

  /** No content screen, not even the not-found one, is shown without a signed-in user. */
  lemma NoContentWithoutAuthentication(s: Session, path: string)
    ensures Render(s, path).ShellScreen? <==> IsAuthenticated(s)
  {
  }

  /** Once signed in, the selected role no longer matters. */
  lemma ShellIgnoresSelectedRole(u: User, r1: Option<Role>, r2: Option<Role>, path: string)
    ensures AppRoutes(Some(u), r1, path) == AppRoutes(Some(u), r2, path) == ShellScreen(Route(path))
  {
  }

  /**
   * After any logout or reload, every path renders role selection until a role is
   * chosen again; in particular "/" does not render the dashboard.
   */
  lemma AfterLogOutRoleSelection(s: Session, path: string)
    ensures Render(Step(s, LogOut), path) == RoleSelectionScreen
    ensures Render(Step(s, ReloadPage), path) == RoleSelectionScreen
  {
  }

  /** A failed credential check for the selected role leaves its login form on screen. */
  lemma FailedLoginStaysOnForm(s: Session, u: string, p: string, path: string)
    requires s.user.None? && s.selectedRole.Some?
    requires !CheckCredentials(u, p, s.selectedRole.value)
    ensures Render(Step(s, SubmitCredentials(u, p, s.selectedRole.value)), path) == LoginScreen(s.selectedRole.value)
  {
  }

  /** A successful check for the selected role moves from the login form to the shell. */
  lemma SuccessfulLoginOpensShell(s: Session, r: Role, path: string)
    requires s.user.None? && s.selectedRole == Some(r)
    ensures Render(Step(s, SubmitCredentials(RoleLiteral(r), "password", r)), path) == ShellScreen(Route(path))
  {
  }

  /**
   * The login form's back action, `window.location.reload()`: the page starts
   * over with a new provider whose cells are both `null`, so role selection shows.
   */
  method OnBack() returns (auth: AuthProvider)
    ensures fresh(auth) && auth.Valid()
    ensures auth.Current() == InitialSession
    ensures forall path :: Render(auth.Current(), path) == RoleSelectionScreen
  {
    auth := new AuthProvider();
  }

  /**
   * A session as a user drives it: choose the administrator role, fail once,
   * sign in, visit an unknown path, sign out.
   */
  method SessionWalkthrough()
  {
    var auth := new AuthProvider();
    assert Render(auth.Current(), "/") == RoleSelectionScreen;
    auth.SelectRole(Admin);
    assert Render(auth.Current(), "/") == LoginScreen(Admin);
    var ok := auth.Login("admin", "wrong", Admin);
    assert !ok && auth.user == None && auth.selectedRole == Some(Admin);
    ok := auth.Login("admin", "password", Admin);
    assert ok && auth.user.value.name == "John Smith";
    assert Render(auth.Current(), "/unknown") == ShellScreen(NotFoundPage);
    auth.Logout();
    assert Render(auth.Current(), "/") == RoleSelectionScreen;
  }
}
