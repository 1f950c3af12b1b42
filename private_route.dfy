/**
 * The route guard (`src/components/PrivateRoute.tsx`): it asks the backend
 * for the current user once, shows a placeholder until the answer arrives,
 * then renders the protected page or redirects to the login page.
 */
module PrivateRoute {
  import opened Wrappers
  import AuthContext

  /** What the guard renders. */
  datatype Rendered =
    | Loading
    | Children
    /** `<Navigate to={to} state={{ from }} replace={replace} />`. */
    | Redirect(to: string, from: string, replace: bool)

  const LoginRoute: string := "/login"

  /** `checkAuth`: authenticated exactly when `getUser` returned a user. */
  function CheckAuth(fetchedUser: Option<AuthContext.User>): (r: bool)
    ensures r <==> fetchedUser.Some?
  {
    fetchedUser != None
  }

  /**
   * The render. `requireAuth` is None when the prop is omitted (it defaults
   * to true); `isAuthenticated` is None until `checkAuth` has answered.
   */
  function Render(requireAuth: Option<bool>, isAuthenticated: Option<bool>, location: string): (r: Rendered)
    // the placeholder shows while the check is pending, whatever requireAuth is
    ensures r == Loading <==> isAuthenticated.None?
    ensures r == Children <==> isAuthenticated.Some? && (requireAuth == Some(false) || isAuthenticated.value)
    ensures r.Redirect? ==> r == Redirect(LoginRoute, location, true)
  {
    var mustAuthenticate := requireAuth.GetOr(true);
    if isAuthenticated.None? then Loading
    else if !mustAuthenticate || isAuthenticated.value then Children
    else Redirect(LoginRoute, location, true)
  }

  /** Without the prop, a guest is sent to the login page with the page they asked for. */
  lemma GuardedByDefault(location: string)
    ensures Render(None, Some(false), location) == Redirect(LoginRoute, location, true)
  {
  }

  /**
   * Once the check has answered, a guest is redirected exactly when the
   * page requires authentication, and a signed-in user always sees it.
   */
  lemma RedirectIff(requireAuth: Option<bool>, fetchedUser: Option<AuthContext.User>, location: string)
    ensures Render(requireAuth, Some(CheckAuth(fetchedUser)), location).Redirect?
        <==> fetchedUser.None? && requireAuth != Some(false)
    ensures fetchedUser.Some? ==> Render(requireAuth, Some(CheckAuth(fetchedUser)), location) == Children
  {
  }
}
