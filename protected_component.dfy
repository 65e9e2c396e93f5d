/** The inline guard (src/components/ProtectedComponent.tsx). */
module ProtectedComponent {
  import ProtectedRoute

  const DefaultRequireAuth: bool := true

  /**
   * Whether the children are shown: to signed-in visitors when authentication is required,
   * to guests when it is not; otherwise the component renders nothing.
   */
  predicate Shows(requireAuth: bool, isAuthenticated: bool)
  {
    (requireAuth && isAuthenticated) || (!requireAuth && !isAuthenticated)
  }

  /**
   * The component shows its children exactly when the route guard with the same setting
   * would render them, so the two guards agree; where the route guard redirects, this one
   * shows nothing.
   */
  lemma AgreesWithRouteGuard(requireAuth: bool, isAuthenticated: bool, redirectTo: string, location: string)
    ensures Shows(requireAuth, isAuthenticated)
      <==> ProtectedRoute.Decide(requireAuth, redirectTo, isAuthenticated, location).RenderChildren?
  {
  }

  /** For any one visitor, exactly one of a protected and a public block is shown. */
  lemma ExactlyOneVariant(isAuthenticated: bool)
    ensures Shows(true, isAuthenticated) != Shows(false, isAuthenticated)
  {
  }
}
