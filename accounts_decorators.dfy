/** accounts/decorators.py: the role_required gate in front of a view. */
module AccountsDecorators {
  import opened Common
  import opened AccountsModels

  /** The requesting user as the gate sees it: logged in or not, with or
      without a UserProfile. */
  datatype User = User(authenticated: bool, profile: Option<UserProfile>)

  /** What the wrapped view returns: a redirect to the login page or the
      dashboard, or the view's own response. */
  datatype Response<+R> = RedirectLogin | RedirectDashboard | Called(response: R)

  /** role_required(*allowed)(view) applied to a request from `user` with
      the view's arguments `args`. An anonymous user or one without a
      profile is sent to login; a user whose role is not allowed is sent to
      the dashboard unless ceo is allowed or the user is ceo; anyone else
      reaches the view with the arguments unchanged. */
  function RoleRequired<A, R>(allowed: seq<Role>, view: A -> R, user: User, args: A): (r: Response<R>)
    ensures !user.authenticated ==> r == RedirectLogin
    ensures user.authenticated && user.profile.None? ==> r == RedirectLogin
    ensures r == RedirectDashboard <==>
      && user.authenticated && user.profile.Some?
      && user.profile.value.role !in allowed && Ceo !in allowed && user.profile.value.role != Ceo
    ensures user.authenticated && user.profile.Some? && Ceo in allowed ==> r == Called(view(args))
    ensures r.Called? ==> r.response == view(args)
  {
    if !user.authenticated then RedirectLogin
    else if user.profile.None? then RedirectLogin
    else
      var role := user.profile.value.role;
      if role !in allowed && Ceo !in allowed && role != Ceo then RedirectDashboard
      else Called(view(args))
  }
}
