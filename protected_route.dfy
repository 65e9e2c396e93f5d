/** The route guard (src/components/ProtectedRoute.tsx). */
module ProtectedRoute {
  import opened Wrappers

  const DefaultRequireAuth: bool := true
  const DefaultRedirectTo: string := "/login"
  const HomePath: string := "/"

  /** What the guard renders: its children, or a `<Navigate>` with its target, state and `replace`. */
  datatype Outcome = RenderChildren | Navigate(to: string, from: Option<string>, replace: bool)

  /**
   * The guard's decision for a visitor at `location`: a guest on a protected route goes to
   * `redirectTo` remembering where they came from; a signed-in visitor on a public route goes
   * to the home path, whatever `redirectTo` says; everyone else sees the children.
   */
  function Decide(requireAuth: bool, redirectTo: string, isAuthenticated: bool, location: string): (r: Outcome)
    ensures r.RenderChildren? <==> requireAuth == isAuthenticated
    ensures requireAuth && !isAuthenticated ==> r == Navigate(redirectTo, Some(location), true)
    ensures !requireAuth && isAuthenticated ==> r == Navigate(HomePath, None, true)
  {
    if requireAuth && !isAuthenticated then Navigate(redirectTo, Some(location), true)
    else if !requireAuth && isAuthenticated then Navigate(HomePath, None, true)
    else RenderChildren
  }

  /** With the defaults, a guest is sent to the login page and a signed-in visitor sees the page. */
  lemma DefaultsProtect(isAuthenticated: bool, location: string)
    ensures Decide(DefaultRequireAuth, DefaultRedirectTo, isAuthenticated, location)
      == if isAuthenticated then RenderChildren else Navigate("/login", Some(location), true)
  {
  }

  /** On a public route the `redirectTo` prop has no effect. */
  lemma PublicRouteIgnoresRedirectTo(a: string, b: string, isAuthenticated: bool, location: string)
    ensures Decide(false, a, isAuthenticated, location) == Decide(false, b, isAuthenticated, location)
  {
  }

  /** Every redirect replaces the history entry, and only the guest redirect carries the origin. */
  lemma RedirectsReplace(requireAuth: bool, redirectTo: string, isAuthenticated: bool, location: string)
    ensures var r := Decide(requireAuth, redirectTo, isAuthenticated, location);
      r.Navigate? ==> r.replace && (r.from.Some? <==> requireAuth)
  {
  }
}
