/**
 * The three route guards as pure decisions over the current session.
 * Each guard checks loading first, then authentication, then (RoleGuard) role.
 */
module Guards {
  import opened Wrappers
  import opened AuthTypes
  import AuthContext

  /** `ROUTES.LOGIN`, `ROUTES.DASHBOARD`, `ROUTES.ADMIN_DASHBOARD`, or any other path. */
  datatype Path = Login | Dashboard | AdminDashboard | Custom(path: string)

  /**
   * What a guard renders: the spinner, its children, or a `<Navigate>`.
   * `replace` is the `replace` prop; `from` is the location passed in `state.from`.
   */
  datatype Decision = Pending | Allow | Redirect(to: Path, replace: bool, from: Option<string>)

  /** `AuthGuard` at the current `location`. */
  function AuthGuard(session: AuthState, location: string): (d: Decision)
    ensures d.Pending? <==> session.isLoading
    ensures d.Allow? <==> !session.isLoading && session.isAuthenticated
    ensures d.Redirect? <==> !session.isLoading && !session.isAuthenticated
    ensures d.Redirect? ==> d == Redirect(Login, true, Some(location))
  {
    if session.isLoading then Pending
    else if !session.isAuthenticated then Redirect(Login, true, Some(location))
    else Allow
  }

  /** `AuthGuard` looks only at the two flags, never at the user or the role. */
  lemma AuthGuardIgnoresUser(s1: AuthState, s2: AuthState, location: string)
    requires s1.isLoading == s2.isLoading && s1.isAuthenticated == s2.isAuthenticated
    ensures AuthGuard(s1, location) == AuthGuard(s2, location)
  {
  }

  /** Where an authenticated visitor of a guest page is sent: `user?.role === 'admin'`. */
  function HomeFor(user: Option<User>): (p: Path)
    ensures p == AdminDashboard <==> user.Some? && user.value.role == AdminRole
    ensures p != AdminDashboard ==> p == Dashboard
  {
    if user.Some? && user.value.role == AdminRole then AdminDashboard else Dashboard
  }

  /** `GuestGuard`. */
  function GuestGuard(session: AuthState): (d: Decision)
    ensures d.Pending? <==> session.isLoading
    ensures d.Allow? <==> !session.isLoading && !session.isAuthenticated
    ensures d.Redirect? ==> d == Redirect(HomeFor(session.user), true, None)
    // A guest page never sends anyone to the login page.
    ensures !(d.Redirect? && d.to == Login)
  {
    if session.isLoading then Pending
    else if session.isAuthenticated then Redirect(HomeFor(session.user), true, None)
    else Allow
  }

  /** `RoleGuard`; a missing `fallbackPath` prop defaults to `ROUTES.DASHBOARD`. */
  function RoleGuard(session: AuthState, allowedRoles: seq<Role>, fallbackPath: Option<Path>): (d: Decision)
    ensures d.Pending? <==> session.isLoading
    ensures !session.isLoading && !session.isAuthenticated ==> d == Redirect(Login, true, None)
    ensures d.Allow? <==> && !session.isLoading && session.isAuthenticated
                          && session.user.Some? && session.user.value.role in allowedRoles
    ensures && !session.isLoading && session.isAuthenticated
            && (session.user.None? || session.user.value.role !in allowedRoles)
        ==> d == Redirect(fallbackPath.GetOr(Dashboard), true, None)
  {
    if session.isLoading then Pending
    else if !session.isAuthenticated then Redirect(Login, true, None)
    else if session.user.None? || session.user.value.role !in allowedRoles then
      Redirect(fallbackPath.GetOr(Dashboard), true, None)
    else Allow
  }

  /** With no allowed roles nothing is ever allowed through. */
  lemma RoleGuardEmptyNeverAllows(session: AuthState, fallbackPath: Option<Path>)
    ensures !RoleGuard(session, [], fallbackPath).Allow?
  {
  }

  /** Authentication failure wins over role failure, whatever the roles and fallback. */
  lemma RoleGuardLoginFirst(session: AuthState, r1: seq<Role>, f1: Option<Path>, r2: seq<Role>, f2: Option<Path>)
    requires !session.isLoading && !session.isAuthenticated
    ensures RoleGuard(session, r1, f1) == RoleGuard(session, r2, f2) == Redirect(Login, true, None)
  {
  }

  /** The admin area's guard: `allowedRoles=['admin']`, `fallbackPath=ROUTES.DASHBOARD`. */
  function AdminAreaGuard(session: AuthState): Decision {
    RoleGuard(session, [AdminRole], Some(Dashboard))
  }

  /**
   * In the admin area a signed-in regular user is sent to the dashboard, not to
   * the login page, and a signed-in admin is let through.
   */
  lemma AdminAreaDecisions(u: User)
    ensures u.role == UserRole ==> AdminAreaGuard(AuthState(Some(u), true, false)) == Redirect(Dashboard, true, None)
    ensures u.role == AdminRole ==> AdminAreaGuard(AuthState(Some(u), true, false)) == Allow
  {
  }

  /** A session that `login` produced passes `AuthGuard` on every path. */
  lemma LoginThenAuthGuard(u: User, location: string)
    ensures AuthGuard(AuthState(Some(u), true, false), location) == Allow
  {
  }

  /** A session that `logout` produced is sent to the login page, remembering where it was going. */
  lemma LogoutThenAuthGuard(location: string)
    ensures AuthGuard(LoggedOut, location) == Redirect(Login, true, Some(location))
  {
  }

  /**
   * Start-up scenario: storage holds a token and an admin user; the hydrated
   * session is authenticated and the guest pages send it to the admin dashboard.
   */
  lemma HydratedAdminSkipsGuestPages(storage: AuthContext.Storage, parse: string -> AuthContext.JsonResult, admin: User)
    requires admin.role == AdminRole
    requires AuthContext.Truthy(storage, AuthContext.TokenKey) && AuthContext.Truthy(storage, AuthContext.UserKey)
    requires parse(storage[AuthContext.UserKey]) == AuthContext.Json(Some(admin))
    ensures GuestGuard(AuthContext.Hydrate(storage, parse).state) == Redirect(AdminDashboard, true, None)
  {
  }

  /**
   * The stored text `"null"`: the hydrated session is authenticated without a
   * user; guest pages send it to the dashboard and the admin area sends it to its fallback.
   */
  lemma HydratedNullUser(storage: AuthContext.Storage, parse: string -> AuthContext.JsonResult)
    requires AuthContext.Truthy(storage, AuthContext.TokenKey) && AuthContext.Truthy(storage, AuthContext.UserKey)
    requires parse(storage[AuthContext.UserKey]) == AuthContext.Json(None)
    ensures var s := AuthContext.Hydrate(storage, parse).state;
            && GuestGuard(s) == Redirect(Dashboard, true, None)
            && AdminAreaGuard(s) == Redirect(Dashboard, true, None)
            && AuthGuard(s, "/settings") == Allow
  {
  }

  /** `updateUser` while logged out leaves a user in the session, yet every guard still treats it as a guest. */
  lemma StrayUserIsStillGuest(u: User, location: string)
    ensures var s := LoggedOut.(user := Some(u));
            && GuestGuard(s) == Allow
            && AuthGuard(s, location) == Redirect(Login, true, Some(location))
            && AdminAreaGuard(s) == Redirect(Login, true, None)
  {
  }
}
