/**
 * The route guard and route table of src/routes/AppRouter.jsx. A route
 * resolves either to the screens it renders, outermost first, or to a
 * redirect. Paths are compared exactly as written.
 */
module Router {
  import opened Options

  const LoginPath: string := "/login"
  const DashboardPath: string := "/dashboard"
  const UsersPath: string := "/dashboard/users"
  const StudiesPath: string := "/dashboard/studies"
  const AddressesPath: string := "/dashboard/addresses"

  const AdminRole: string := "admin"

  datatype Screen = LoginScreen | DashboardScreen | ProfileScreen | UsersScreen | StudiesScreen | AddressesScreen

  datatype Outcome = Render(screens: seq<Screen>) | Redirect(to: string)

  /** `roles.includes(role)`; a role that is null is in no list. */
  predicate Includes(roles: seq<string>, role: Option<string>) {
    role.Some? && role.value in roles
  }

  /**
   * `PrivateRoute`: an absent `roles` admits every signed-in role; any list,
   * the empty one included, admits only the roles it names.
   */
  function PrivateRoute(isAuthenticated: bool, role: Option<string>, roles: Option<seq<string>>,
                        children: seq<Screen>): (r: Outcome)
    ensures r.Render? <==> isAuthenticated && (roles.None? || Includes(roles.value, role))
    ensures r.Render? ==> r.screens == children
    ensures r.Redirect? ==> r.to == (if isAuthenticated then DashboardPath else LoginPath)
  {
    if !isAuthenticated then Redirect(LoginPath)
    else if roles.Some? && !Includes(roles.value, role) then Redirect(DashboardPath)
    else Render(children)
  }

  /** `AppRouter`: the route table, with the catch-all last. */
  function Route(isAuthenticated: bool, role: Option<string>, path: string): (r: Outcome)
    ensures path == LoginPath ==> r == Render([LoginScreen])
    ensures r.Redirect? ==> r.to == LoginPath || r.to == DashboardPath
  {
    if path == LoginPath then Render([LoginScreen])
    else if path == DashboardPath then
      PrivateRoute(isAuthenticated, role, None, [DashboardScreen, ProfileScreen])
    else if path == UsersPath then
      match PrivateRoute(isAuthenticated, role, None, [DashboardScreen])
      case Redirect(to) => Redirect(to)
      case Render(layout) => PrivateRoute(isAuthenticated, role, Some([AdminRole]), layout + [UsersScreen])
    else if path == StudiesPath then
      PrivateRoute(isAuthenticated, role, None, [DashboardScreen, StudiesScreen])
    else if path == AddressesPath then
      PrivateRoute(isAuthenticated, role, None, [DashboardScreen, AddressesScreen])
    else Redirect(DashboardPath)
  }

  /** The paths the table names, `/login` aside. */
  predicate IsDashboardPath(path: string) {
    path == DashboardPath || path == UsersPath || path == StudiesPath || path == AddressesPath
  }

  /** Signed out, every dashboard path goes to `/login`. */
  lemma UnauthenticatedToLogin(role: Option<string>, path: string)
    requires IsDashboardPath(path)
    ensures Route(false, role, path) == Redirect(LoginPath)
  {
  }

  /** The users screen renders exactly for a signed-in admin; a signed-in non-admin goes to `/dashboard`. */
  lemma UsersAdminOnly(isAuthenticated: bool, role: Option<string>)
    ensures Route(isAuthenticated, role, UsersPath).Render? <==> isAuthenticated && role == Some(AdminRole)
    ensures Route(isAuthenticated, role, UsersPath).Render? ==>
      Route(isAuthenticated, role, UsersPath).screens == [DashboardScreen, UsersScreen]
    ensures isAuthenticated && role != Some(AdminRole) ==> Route(isAuthenticated, role, UsersPath) == Redirect(DashboardPath)
  {
  }

  /** The other dashboard paths render their own child screen for every signed-in role, null included. */
  lemma MemberPagesAnyRole(role: Option<string>)
    ensures Route(true, role, DashboardPath) == Render([DashboardScreen, ProfileScreen])
    ensures Route(true, role, StudiesPath) == Render([DashboardScreen, StudiesScreen])
    ensures Route(true, role, AddressesPath) == Render([DashboardScreen, AddressesScreen])
  {
  }

  /** A path the table does not name goes to `/dashboard`, signed in or not. */
  lemma UnknownPathToDashboard(isAuthenticated: bool, role: Option<string>, path: string)
    requires path != LoginPath && !IsDashboardPath(path)
    ensures Route(isAuthenticated, role, path) == Redirect(DashboardPath)
  {
  }

  /** Following redirects reaches a rendered page within two hops: no redirect loops. */
  lemma RedirectsSettle(isAuthenticated: bool, role: Option<string>, path: string)
    ensures Route(isAuthenticated, role, path).Redirect? ==>
      var hop := Route(isAuthenticated, role, Route(isAuthenticated, role, path).to);
      hop.Render? || Route(isAuthenticated, role, hop.to).Render?
  {
  }
}
