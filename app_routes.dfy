/** The application's routes: which page each path shows, which routes are protected
    and for which roles, and `ProtectedRoute`'s decision between the spinner, a
    redirect and the protected page. */
module AppRoutes {
  import opened Common
  import opened Enums

  /** The signed-in user's `profiles` row as the auth context holds it. The role is
      kept as the string stored in the row. */
  datatype Profile = Profile(role: string, isApproved: Option<bool>)

  datatype Page =
    | Home | Auth | DashboardRedirect | UserDashboard | VendorDashboard | AdminDashboard
    | About | Gallery | Cart | Services | NotFound

  /** A `<Route>`: its path, its page, and the `allowedRoles` of its `ProtectedRoute`
      wrapper when it has one. */
  datatype RouteEntry = RouteEntry(path: string, page: Page, allowedRoles: Option<seq<string>>)

  /** The `<Routes>` table: the first route, in declaration order, whose path is
      `path`, or the `*` catch-all showing NotFound. */
  function Resolve(path: string): RouteEntry {
    if path == "/" then RouteEntry(path, Home, None)
    else if path == "/auth" then RouteEntry(path, Auth, None)
    else if path == "/dashboard" then RouteEntry(path, DashboardRedirect, None)
    else if path == "/user/dashboard" then RouteEntry(path, UserDashboard, Some(["user"]))
    else if path == "/vendor/dashboard" then RouteEntry(path, VendorDashboard, Some(["vendor"]))
    else if path == "/admin/dashboard" then RouteEntry(path, AdminDashboard, Some(["admin"]))
    else if path == "/about-us" then RouteEntry(path, About, None)
    else if path == "/gallery" then RouteEntry(path, Gallery, None)
    else if path == "/cart" then RouteEntry(path, Cart, None)
    else if path == "/services" then RouteEntry(path, Services, None)
    else RouteEntry("*", NotFound, None)
  }

  /** A path is served by the route declared for it; only undeclared paths fall
      through to the catch-all, which is never protected. */
  lemma ResolveSpec(path: string)
    ensures Resolve(path).page != NotFound ==> Resolve(path).path == path
    ensures Resolve(path).page == NotFound ==> Resolve(path).allowedRoles.None?
    ensures Resolve(path).allowedRoles.Some? ==> |Resolve(path).allowedRoles.value| == 1
  {
  }

  /** The dashboard path of each role. */
  function DashboardPathOf(role: AppRole): string {
    match role
    case User => "/user/dashboard"
    case Vendor => "/vendor/dashboard"
    case Admin => "/admin/dashboard"
  }

  /** What `ProtectedRoute` renders. */
  datatype Guarded = Spinner | RedirectTo(target: string) | Children

  /** `ProtectedRoute`: the spinner while the session loads; then a redirect to /auth
      without a user or a profile; then a redirect to / when the profile's role is not
      allowed; otherwise the protected page. */
  function ProtectedRoute(loading: bool, signedIn: bool, profile: Option<Profile>, allowedRoles: seq<string>): Guarded {
    if loading then Spinner
    else if !signedIn || profile.None? then RedirectTo("/auth")
    else if profile.value.role !in allowedRoles then RedirectTo("/")
    else Children
  }

  /** The spinner comes before every other check; the page is shown exactly to a
      signed-in user whose profile has an allowed role; a missing user or profile
      always leads to /auth and a role outside the list always to /. */
  lemma ProtectedRouteSpec(loading: bool, signedIn: bool, profile: Option<Profile>, allowedRoles: seq<string>)
    ensures loading ==> ProtectedRoute(loading, signedIn, profile, allowedRoles) == Spinner
    ensures ProtectedRoute(loading, signedIn, profile, allowedRoles) == Children <==>
              !loading && signedIn && profile.Some? && profile.value.role in allowedRoles
    ensures !loading && (!signedIn || profile.None?) ==>
              ProtectedRoute(loading, signedIn, profile, allowedRoles) == RedirectTo("/auth")
    ensures !loading && signedIn && profile.Some? && profile.value.role !in allowedRoles ==>
              ProtectedRoute(loading, signedIn, profile, allowedRoles) == RedirectTo("/")
    ensures ProtectedRoute(loading, signedIn, profile, allowedRoles) == Spinner ==> loading
  {
  }

  /** What visiting a path shows: protected routes go through `ProtectedRoute`; the
      home route's `AppContent` shows its own spinner while the session loads; every
      other route shows its page at once. */
  function Visit(path: string, loading: bool, signedIn: bool, profile: Option<Profile>): (g: Guarded)
    ensures g == Spinner <==> loading && (Resolve(path).page == Home || Resolve(path).allowedRoles.Some?)
    ensures Resolve(path).allowedRoles.None? ==> g == Spinner || g == Children
    ensures !loading && Resolve(path).allowedRoles.Some? ==>
              (g == Children <==> signedIn && profile.Some? && profile.value.role in Resolve(path).allowedRoles.value)
  {
    var route := Resolve(path);
    if route.allowedRoles.Some? then ProtectedRoute(loading, signedIn, profile, route.allowedRoles.value)
    else if route.page == Home && loading then Spinner
    else Children
  }

  /** Each dashboard route shows its own dashboard and admits exactly its own role. */
  lemma DashboardRoutes(role: AppRole)
    ensures Resolve(DashboardPathOf(role)).page ==
              match role
              case User => UserDashboard
              case Vendor => VendorDashboard
              case Admin => AdminDashboard
    ensures Resolve(DashboardPathOf(role)).allowedRoles == Some([RoleName(role)])
  {
  }

  /** A signed-in user with a loaded profile sees a dashboard exactly when the
      profile's role is that dashboard's role; any other role, including a string that
      names no role, is sent to /. */
  lemma DashboardAdmitsOnlyItsRole(role: AppRole, profile: Profile)
    ensures Visit(DashboardPathOf(role), false, true, Some(profile)) == Children <==> profile.role == RoleName(role)
    ensures profile.role != RoleName(role) ==> Visit(DashboardPathOf(role), false, true, Some(profile)) == RedirectTo("/")
  {
    DashboardRoutes(role);
  }
}
