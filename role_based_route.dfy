/**
 * The route gate: a loading view while authentication is pending, a
 * redirect to the dashboard for a missing user or a role outside the
 * route's list, and the protected page otherwise.
 */
module RoleBasedRoute {
  import opened Types

  datatype RouteView = LoadingView | RedirectToDashboard | RenderChildren

  /** The three-way decision. */
  function Gate(isLoading: bool, user: Option<User>, roles: seq<string>): (v: RouteView)
    ensures isLoading ==> v == LoadingView
    ensures !isLoading && user.None? ==> v == RedirectToDashboard
    ensures v == RenderChildren <==> !isLoading && user.Some? && RoleName(user.value.role) in roles
  {
    if isLoading then LoadingView
    else if user.None? || RoleName(user.value.role) !in roles then RedirectToDashboard
    else RenderChildren
  }

  /** Once loaded, the gate only ever renders or redirects. */
  lemma LoadedNeverLoading(user: Option<User>, roles: seq<string>)
    ensures Gate(false, user, roles) != LoadingView
    ensures Gate(false, user, roles) == RedirectToDashboard <==>
      user.None? || RoleName(user.value.role) !in roles
  {
  }

  /** Allowing more roles never locks out a user who was let in. */
  lemma GateMonotoneInRoles(isLoading: bool, user: Option<User>, roles: seq<string>, more: seq<string>)
    requires forall r :: r in roles ==> r in more
    ensures Gate(isLoading, user, roles) == RenderChildren ==> Gate(isLoading, user, more) == RenderChildren
  {
  }

  /** A route open to all three roles lets in every signed-in user once loaded. */
  lemma AllRolesAdmitsEveryone(user: User)
    ensures Gate(false, Some(user), RoleNames) == RenderChildren
  {
  }
}
