/** The root layout's server `load` (src/routes/+layout.server.ts): a signed-in user without
    a username is sent to the registration page from every page but the auth routes. */
module Layout {
  import opened Common
  import opened AuthCallbacks

  datatype LayoutResult = Redirect(status: nat, location: string) | Render(user: Option<SessionUserData>)

  const RegistrationPath := "/registration"

  /** The paths the registration guard leaves alone. */
  predicate Exempt(pathname: string) {
    StartsWith(pathname, RegistrationPath) || StartsWith(pathname, "/signout") || StartsWith(pathname, "/api/auth")
  }

  /** `load`: redirect with 302 to /registration, or hand the session to the page. */
  function Load(user: Option<SessionUserData>, pathname: string): (r: LayoutResult)
    ensures r.Redirect? <==> user.Some? && !Truthy(user.value.username) && !Exempt(pathname)
    ensures r.Redirect? ==> r == Redirect(302, RegistrationPath)
    ensures r.Render? ==> r.user == user
  {
    if user.Some? && !Truthy(user.value.username) && !Exempt(pathname) then Redirect(302, RegistrationPath)
    else Render(user)
  }

  /** The redirect target is itself exempt, so following the redirect never redirects
      again. */
  lemma NoRedirectLoop(user: Option<SessionUserData>, pathname: string)
    requires Load(user, pathname).Redirect?
    ensures Load(user, Load(user, pathname).location).Render?
  {
    assert RegistrationPath[..|RegistrationPath|] == RegistrationPath;
  }

  /** Anonymous visitors and users with a username are never redirected. */
  lemma GuardOnlyForUnregistered(user: Option<SessionUserData>, pathname: string)
    requires user.None? || Truthy(user.value.username)
    ensures Load(user, pathname) == Render(user)
  {
  }
}
