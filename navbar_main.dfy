/** The main navigation bar: the desktop links, the dashboard path and label for the
    signed-in profile, and which buttons are shown. */
module NavBarMain {
  import opened Common
  import opened Enums
  import opened AppRoutes

  /** `getDashboardPath`: a switch on `profile?.role`. */
  function GetDashboardPath(profile: Option<Profile>): Option<string> {
    if profile.None? then None
    else if profile.value.role == "admin" then Some("/admin/dashboard")
    else if profile.value.role == "vendor" then Some("/vendor/dashboard")
    else if profile.value.role == "user" then Some("/user/dashboard")
    else None
  }

  /** A profile whose role names one of the three roles gets that role's dashboard; no
      profile, or any other role string, gets none. */
  lemma GetDashboardPathSpec(profile: Option<Profile>)
    ensures GetDashboardPath(profile).Some? <==> profile.Some? && ParseRole(profile.value.role).Some?
    ensures GetDashboardPath(profile).Some? ==>
              GetDashboardPath(profile) == Some(DashboardPathOf(ParseRole(profile.value.role).value))
  {
  }

  /** The path offered to a profile is a route whose `allowedRoles` holds exactly that
      profile's role, so following the button opens the dashboard once the session has
      loaded. */
  lemma DashboardPathAdmitsRole(profile: Option<Profile>)
    requires GetDashboardPath(profile).Some?
    ensures Resolve(GetDashboardPath(profile).value).allowedRoles == Some([profile.value.role])
    ensures Visit(GetDashboardPath(profile).value, false, true, profile) == Children
  {
    GetDashboardPathSpec(profile);
    var role := ParseRole(profile.value.role).value;
    DashboardRoutes(role);
    DashboardAdmitsOnlyItsRole(role, profile.value);
  }

  /** The dashboard button's text. */
  function DashboardLabel(profile: Option<Profile>): string {
    if profile.Some? && profile.value.role == "admin" then "Admin Dashboard"
    else if profile.Some? && profile.value.role == "vendor" then "Vendor Dashboard"
    else "User Dashboard"
  }

  /** The label each role's button carries. */
  function LabelOf(role: AppRole): string {
    match role
    case Admin => "Admin Dashboard"
    case Vendor => "Vendor Dashboard"
    case User => "User Dashboard"
  }

  /** The right-hand buttons: a dashboard link and Logout, or Log in and Sign up. */
  datatype Actions = DashboardAndLogout(link: string, buttonLabel: string) | LogInAndSignUp

  /** `user && dashboardPath ? ... : ...`. */
  function NavActions(signedIn: bool, profile: Option<Profile>): Actions {
    var path := GetDashboardPath(profile);
    if signedIn && path.Some? && path.value != "" then DashboardAndLogout(path.value, DashboardLabel(profile))
    else LogInAndSignUp
  }

  /** The dashboard and logout buttons appear exactly for a signed-in user whose
      profile has one of the three roles, and then link to that role's dashboard under
      that role's label; everyone else sees Log in and Sign up. */
  lemma NavActionsSpec(signedIn: bool, profile: Option<Profile>)
    ensures NavActions(signedIn, profile).DashboardAndLogout? <==>
              signedIn && profile.Some? && ParseRole(profile.value.role).Some?
    ensures NavActions(signedIn, profile).DashboardAndLogout? ==>
              var role := ParseRole(profile.value.role).value;
              NavActions(signedIn, profile) == DashboardAndLogout(DashboardPathOf(role), LabelOf(role))
  {
    GetDashboardPathSpec(profile);
  }

  /** The desktop links as written: Home, About Us, Gallery, Services. */
  const DesktopLinks: seq<string> := ["/", "/about", "/gallery", "/services"]

  /** The About Us link points at a path no route declares (the About page is routed
      at /about-us), so it shows the catch-all NotFound page. */
  lemma AboutLinkIsNotFound()
    ensures Resolve(DesktopLinks[1]).page == NotFound
  {
  }

  /** The desktop links with About Us pointing at the About page's route. */
  const CorrectedDesktopLinks: seq<string> := ["/", "/about-us", "/gallery", "/services"]

  /** Every corrected link leads to a declared, unprotected page. */
  lemma CorrectedLinksResolve()
    ensures forall i :: 0 <= i < |CorrectedDesktopLinks| ==>
              Resolve(CorrectedDesktopLinks[i]).page != NotFound &&
              Resolve(CorrectedDesktopLinks[i]).allowedRoles.None?
    ensures Resolve(CorrectedDesktopLinks[1]).page == About
  {
  }
}
