/** accounts/templatetags/permission_tags.py: the template filter and tags
    that ask the user's profile for a permission. */
module PermissionTags {
  import opened Common
  import opened AccountsModels
  import opened AccountsDecorators

  /** The `has_permission` filter: False for a missing or anonymous user
      and for a user without a profile (the AttributeError branch), else
      the profile's answer. */
  function HasPermissionFilter(user: Option<User>, code: string): (r: bool)
    ensures r <==>
      user.Some? && user.value.authenticated && user.value.profile.Some?
      && HasPermission(user.value.profile.value, code)
  {
    if user.None? || !user.value.authenticated then false
    else if user.value.profile.None? then false
    else HasPermission(user.value.profile.value, code)
  }

  /** The `check_permission` tag, written out as the source does; it
      answers exactly as the filter. */
  function CheckPermission(user: Option<User>, code: string): (r: bool)
    ensures r == HasPermissionFilter(user, code)
  {
    match user
    case None => false
    case Some(u) =>
      if !u.authenticated then false
      else match u.profile
        case None => false
        case Some(profile) => HasPermission(profile, code)
  }

  /** The loop of `has_any_permission` over the codes, returning at the
      first code the profile has. */
  function AnyCode(profile: UserProfile, codes: seq<string>): (r: bool)
    ensures r <==> exists k :: 0 <= k < |codes| && HasPermission(profile, codes[k])
  {
    if codes == [] then false
    else if HasPermission(profile, codes[0]) then true
    else
      var rest := AnyCode(profile, codes[1..]);
      assert forall k :: 1 <= k < |codes| ==> codes[k] == codes[1..][k - 1];
      rest
  }

  /** The `has_any_permission` tag: False for a missing or anonymous user,
      a user without a profile, or an empty code list; otherwise true
      exactly when some listed code passes has_permission. */
  function HasAnyPermission(user: Option<User>, codes: seq<string>): (r: bool)
    ensures codes == [] ==> !r
    ensures r <==> exists k :: 0 <= k < |codes| && HasPermissionFilter(user, codes[k])
  {
    if user.None? || !user.value.authenticated then false
    else if user.value.profile.None? then false
    else AnyCode(user.value.profile.value, codes)
  }
}
