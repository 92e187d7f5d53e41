/** The /dashboard route: it sends a signed-in profile on to its role's dashboard, and
    it signs out a non-user account whose approval was refused. */
module DashboardPage {
  import opened Common
  import opened Enums
  import opened AppRoutes
  import opened NavBarMain

  /** What the route renders. */
  datatype Rendered = Nothing | NavigateTo(target: string) | InvalidRole

  /** The render: nothing without a profile, then a switch on the role. */
  function DashboardView(profile: Option<Profile>): Rendered {
    if profile.None? then Nothing
    else if profile.value.role == "user" then NavigateTo("/user/dashboard")
    else if profile.value.role == "vendor" then NavigateTo("/vendor/dashboard")
    else if profile.value.role == "admin" then NavigateTo("/admin/dashboard")
    else InvalidRole
  }

  /** Nothing is rendered without a profile; the redirect target is exactly the
      navigation bar's dashboard path for the same profile; a role string naming no
      role shows 'Invalid role'. */
  lemma DashboardViewSpec(profile: Option<Profile>)
    ensures DashboardView(profile) == Nothing <==> profile.None?
    ensures forall t :: DashboardView(profile) == NavigateTo(t) <==> GetDashboardPath(profile) == Some(t)
    ensures DashboardView(profile) == InvalidRole <==> profile.Some? && ParseRole(profile.value.role).None?
  {
    GetDashboardPathSpec(profile);
  }

  /** Following the redirect, a signed-in profile lands on a route that admits it. */
  lemma RedirectIsAdmitted(profile: Option<Profile>)
    requires DashboardView(profile).NavigateTo?
    ensures Visit(DashboardView(profile).target, false, true, profile) == Children
  {
    DashboardViewSpec(profile);
    DashboardPathAdmitsRole(profile);
  }

  /** The effect's test: a profile whose role is not 'user' and whose `is_approved` is
      exactly false. */
  predicate ShouldSignOut(profile: Option<Profile>) {
    profile.Some? && profile.value.role != "user" && profile.value.isApproved == Some(false)
  }

  /** Users are never signed out, whatever their approval; a null approval never
      triggers the sign-out, nor does an approved account; a vendor or admin whose
      approval is false always does. */
  lemma ShouldSignOutSpec(role: string, isApproved: Option<bool>)
    ensures role == "user" ==> !ShouldSignOut(Some(Profile(role, isApproved)))
    ensures isApproved.None? || isApproved == Some(true) ==> !ShouldSignOut(Some(Profile(role, isApproved)))
    ensures role != "user" && isApproved == Some(false) ==> ShouldSignOut(Some(Profile(role, isApproved)))
    ensures !ShouldSignOut(None)
  {
  }
}
